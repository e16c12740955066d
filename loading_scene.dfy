/**
 * The loading screen scene (d2core/d2systems/scene_loading_screen.go).
 *
 * Four subscriptions follow files through the loading pipeline: a path but no type yet, a type but
 * no handle, a handle but no parsed asset, and "loaded" (anything past the path stage). Each tick
 * the scene gives every viewport the loading priority, stops there when paused, boots (in two
 * phases: first the base scene, then the loading sprite), and then recomputes the progress,
 * fades the first viewport's alpha in while anything is loading and out otherwise, centres the
 * loading sprite in the first viewport and shows the frame matching the progress.
 *
 * The base scene (its viewports, pause flag and boot) is not part of this model beyond the
 * fields the loading scene reads; the loading sprite is queued through the scene's sprite factory.
 */
module LoadingScreen {
  import opened Components
  import opened Ecs
  import opened SpriteSystem
  import TimeScale

  // ---------------------------------------------------------------------------------------------
  // The four load stages

  /** The kinds a file entity gains once it is opened or parsed. */
  const Assets: set<Kind> :=
    {GameConfig, StringTable, DataDictionary, Palette, PaletteTransform,
     Cof, Dc6, Dcc, Ds1, Dt1, Wav, AnimationData}

  /** A path, but no type yet. */
  const Stage1 := Filter({FilePath}, {FileType, FileHandle, FileSource} + Assets, {})

  /** A type, but no handle yet. */
  const Stage2 := Filter({FilePath, FileType}, {FileHandle, FileSource} + Assets, {})

  /** A handle, but nothing parsed yet. */
  const Stage3 := Filter({FilePath, FileType, FileHandle}, {FileSource} + Assets, {})

  /** Loaded: a handle, a source or a parsed asset. */
  const Stage4 := Filter({}, {}, {FileHandle, FileSource} + Assets)

  /** Some file is still in one of the first three stages. */
  predicate IsLoading(s: Store) {
    |Members(s, Stage1)| > 0 || |Members(s, Stage2)| > 0 || |Members(s, Stage3)| > 0
  }

  /**
   * A file still on its way: it has a path, no source and no parsed asset, and a handle only
   * once it has a type.
   */
  predicate InPipeline(c: Components) {
    && FilePath in c
    && FileSource !in c
    && c.Keys !! Assets
    && (FileHandle in c ==> FileType in c)
  }

  /** The three loading stages and the loaded stage do not overlap, except that stage 3 is loaded. */
  lemma StagesDisjoint(s: Store)
    ensures Members(s, Stage1) !! Members(s, Stage2)
    ensures Members(s, Stage1) !! Members(s, Stage3)
    ensures Members(s, Stage2) !! Members(s, Stage3)
    ensures Members(s, Stage1) !! Members(s, Stage4)
    ensures Members(s, Stage2) !! Members(s, Stage4)
    ensures Members(s, Stage3) <= Members(s, Stage4)
  {
    forall e | e in Members(s, Stage3)
      ensures e in Members(s, Stage4)
    {
      assert FileHandle in Stage4.requireOne * s[e].Keys;
    }
  }

  /** Every file entity is untyped, typed but unopened, or loaded. */
  lemma FilesCovered(s: Store)
    ensures forall e | e in s && FilePath in s[e] ::
      e in Members(s, Stage1) || e in Members(s, Stage2) || e in Members(s, Stage4)
  {
    forall e | e in s && FilePath in s[e]
      ensures e in Members(s, Stage1) || e in Members(s, Stage2) || e in Members(s, Stage4)
    {
      var kinds := s[e].Keys;
      if !(kinds !! ({FileHandle, FileSource} + Assets)) {
        var k :| k in kinds && k in {FileHandle, FileSource} + Assets;
        assert k in Stage4.requireOne * kinds;
      }
    }
  }

  /** The scene is loading exactly when some file is still in the pipeline. */
  lemma LoadingMeansPipeline(s: Store)
    ensures IsLoading(s) <==> exists e | e in s :: InPipeline(s[e])
  {
    if IsLoading(s) {
      var e: EID;
      if |Members(s, Stage1)| > 0 {
        e :| e in Members(s, Stage1);
      } else if |Members(s, Stage2)| > 0 {
        e :| e in Members(s, Stage2);
      } else {
        e :| e in Members(s, Stage3);
      }
      assert InPipeline(s[e]);
    }
    if e :| e in s && InPipeline(s[e]) {
      var kinds := s[e].Keys;
      if FileType !in kinds {
        assert e in Members(s, Stage1);
      } else if FileHandle !in kinds {
        assert e in Members(s, Stage2);
      } else {
        assert e in Members(s, Stage3);
      }
    }
  }

  // ---------------------------------------------------------------------------------------------
  // Progress

  /** A float64 progress value: a finite number, or the NaN or infinity of a division by zero. */
  datatype Progress = Finite(value: real) | NotFinite

  /** updateLoadProgress: one minus the average of the three loading counts over the loaded count. */
  function LoadProgress(untyped: nat, unhandled: nat, unparsed: nat, loaded: nat): (p: Progress)
    ensures loaded == 0 <==> p.NotFinite?
  {
    if loaded == 0 then NotFinite
    else Finite(1.0 - (untyped + unhandled + unparsed) as real / 3.0 / loaded as real)
  }

  function ProgressOf(s: Store): Progress {
    LoadProgress(|Members(s, Stage1)|, |Members(s, Stage2)|, |Members(s, Stage3)|, |Members(s, Stage4)|)
  }

  /** Progress never exceeds 1, and is 1 once nothing is left in the first three stages. */
  lemma ProgressBounds(untyped: nat, unhandled: nat, unparsed: nat, loaded: nat)
    requires loaded > 0
    ensures LoadProgress(untyped, unhandled, unparsed, loaded).value <= 1.0
    ensures untyped + unhandled + unparsed == 0 <==> LoadProgress(untyped, unhandled, unparsed, loaded) == Finite(1.0)
    ensures untyped + unhandled + unparsed <= 3 * loaded ==> LoadProgress(untyped, unhandled, unparsed, loaded).value >= 0.0
  {
    var sum := (untyped + unhandled + unparsed) as real;
    assert sum / 3.0 / loaded as real == sum / (3.0 * loaded as real);
    if untyped + unhandled + unparsed <= 3 * loaded {
      assert sum <= 3.0 * loaded as real;
    }
  }

  // ---------------------------------------------------------------------------------------------
  // Alpha

  /** updateViewportAlpha on the alpha value: one eighth toward 1 while loading, toward 0 otherwise. */
  function StepAlpha(a: real, loading: bool): real {
    if loading then (if a + 0.125 < 1.0 then a + 0.125 else 1.0)
    else (if a - 0.125 > 0.0 then a - 0.125 else 0.0)
  }

  function StepAlphaN(a: real, loading: bool, n: nat): real {
    if n == 0 then a else StepAlpha(StepAlphaN(a, loading, n - 1), loading)
  }

  /** An alpha in [0, 1] stays there, and moves by exactly one eighth unless it reaches a bound. */
  lemma AlphaStep(a: real, loading: bool)
    requires 0.0 <= a <= 1.0
    ensures 0.0 <= StepAlpha(a, loading) <= 1.0
    ensures loading ==> StepAlpha(a, loading) == a + 0.125 || StepAlpha(a, loading) == 1.0
    ensures !loading ==> StepAlpha(a, loading) == a - 0.125 || StepAlpha(a, loading) == 0.0
  {
  }

  /** Eight loading ticks fade the viewport fully in; eight idle ticks fade it fully out. */
  lemma {:induction false} AlphaSettles(a: real, n: nat)
    requires 0.0 <= a <= 1.0
    ensures StepAlphaN(a, true, n) >= (if a + 0.125 * n as real < 1.0 then a + 0.125 * n as real else 1.0)
    ensures StepAlphaN(a, false, n) <= (if a - 0.125 * n as real > 0.0 then a - 0.125 * n as real else 0.0)
    ensures StepAlphaN(a, true, n) <= 1.0 && StepAlphaN(a, false, n) >= 0.0
    ensures n >= 8 ==> StepAlphaN(a, true, n) == 1.0 && StepAlphaN(a, false, n) == 0.0
  {
    if n > 0 {
      AlphaSettles(a, n - 1);
    }
  }

  /** updateViewportAlpha on the store. */
  function AlphaUpdate(s: Store, viewports: seq<EID>): Store {
    if |viewports| < 1 then s
    else
      var v := viewports[0];
      if v !in s || Alpha !in s[v] then s
      else AddTo(s, v, AlphaP(StepAlpha(s[v][Alpha].alpha, IsLoading(s))))
  }

  // ---------------------------------------------------------------------------------------------
  // The loading sprite's position

  /** Go's integer halving, which truncates toward zero: -3 halves to -1, not -2. */
  function Half(n: int): (h: int)
    ensures n >= 0 ==> 2 * h == n || 2 * h == n - 1
    ensures n < 0 ==> 2 * h == n || 2 * h == n + 1
  {
    if n >= 0 then n / 2 else -((-n) / 2)
  }

  /** The sprite's bottom-left corner that centres a frame of size fw x fh in a w x h viewport. */
  function CentredPosition(w: int, h: int, f: Frame): Payload {
    PositionP(Half(w) - Half(f.width), Half(h) + Half(f.height))
  }

  /**
   * For non-negative sizes the frame is centred to within a pixel horizontally, and its bottom
   * edge lies half a frame below the centre, to within a pixel or two of rounding.
   */
  lemma Centred(w: int, h: int, f: Frame)
    requires w >= 0 && h >= 0 && f.width >= 0 && f.height >= 0
    ensures var p := CentredPosition(w, h, f);
      && w - 1 <= 2 * p.px + f.width <= w + 1
      && h - 2 <= 2 * p.py - f.height <= h
  {
  }

  /** The outcome of a step that may call a method on a nil sprite. */
  datatype Outcome = Done(comps: Store) | Panic

  /**
   * updateLoadingSpritePosition as written: with a first viewport holding a Viewport, and a
   * loading sprite holding a Sprite and a Position, it asks the sprite for its frame size, which
   * panics when the Sprite component holds a nil sprite.
   */
  function PlaceSpriteAsWritten(s: Store, viewports: seq<EID>, sprite: EID): Outcome {
    if |viewports| < 1 || viewports[0] !in s || Viewport !in s[viewports[0]] then Done(s)
    else if sprite !in s || Sprite !in s[sprite] || Position !in s[sprite] then Done(s)
    else if s[sprite][Sprite].sprite.None? then Panic
    else
      var vp := s[viewports[0]][Viewport];
      Done(AddTo(s, sprite, CentredPosition(vp.width, vp.height, CurrentFrame(s[sprite][Sprite].sprite.value))))
  }

  /** updateLoadingSpritePosition, skipping a nil sprite as the sprite factory does. */
  function PlaceSprite(s: Store, viewports: seq<EID>, sprite: EID): Store {
    if |viewports| < 1 || viewports[0] !in s || Viewport !in s[viewports[0]] then s
    else if sprite !in s || Sprite !in s[sprite] || Position !in s[sprite] then s
    else if s[sprite][Sprite].sprite.None? then s
    else
      var vp := s[viewports[0]][Viewport];
      AddTo(s, sprite, CentredPosition(vp.width, vp.height, CurrentFrame(s[sprite][Sprite].sprite.value)))
  }

  /** The corrected step agrees with the code wherever the code does not panic, and changes nothing where it does. */
  lemma PlaceSpriteCorrected(s: Store, viewports: seq<EID>, sprite: EID)
    ensures PlaceSpriteAsWritten(s, viewports, sprite).Done? ==>
      PlaceSprite(s, viewports, sprite) == PlaceSpriteAsWritten(s, viewports, sprite).comps
    ensures PlaceSpriteAsWritten(s, viewports, sprite).Panic? ==> PlaceSprite(s, viewports, sprite) == s
  {
  }

  // ---------------------------------------------------------------------------------------------
  // The loading sprite's frame

  const MinInt64 := -0x8000_0000_0000_0000

  /**
   * int(progress * (numFrames - 1)). Converting a NaN or an infinity gives the smallest 64-bit
   * integer on the usual platforms, which is never a frame index.
   */
  function FrameIndex(p: Progress, frames: nat): int {
    match p
    case Finite(v) => TimeScale.Truncate(v * (frames as real - 1.0))
    case NotFinite => MinInt64
  }

  /** SetCurrentFrame: fails, changing nothing, unless the index names a frame. */
  function SetCurrentFrame(sp: SpriteObj, i: int): (r: Option<SpriteObj>)
    ensures r.Some? <==> 0 <= i < |sp.frames|
    ensures r.Some? ==> r.value == sp.(current := i)
  {
    if 0 <= i < |sp.frames| then Some(sp.(current := i)) else None
  }

  /** updateLoadingSpriteFrame on the sprite: the frame for the progress, or frame 0 on failure. */
  function ShowProgress(sp: SpriteObj, p: Progress): SpriteObj {
    match SetCurrentFrame(sp, FrameIndex(p, |sp.frames|))
    case Some(shown) => shown
    case None =>
      match SetCurrentFrame(sp, 0)
      case Some(first) => first
      case None => sp
  }

  /**
   * A sprite with frames always ends on one of them; a progress in [0, 1] picks the frame
   * proportionally (the first at 0, the last at 1), and anything else falls back to frame 0.
   * Only the current frame changes.
   */
  lemma ShowProgressFrame(sp: SpriteObj, p: Progress)
    ensures ShowProgress(sp, p).frames == sp.frames && ShowProgress(sp, p).bound == sp.bound
    ensures |sp.frames| > 0 ==> ShowProgress(sp, p).current < |sp.frames|
    ensures 0 <= FrameIndex(p, |sp.frames|) < |sp.frames| ==>
      ShowProgress(sp, p).current == FrameIndex(p, |sp.frames|)
    ensures |sp.frames| > 0 && !(0 <= FrameIndex(p, |sp.frames|) < |sp.frames|) ==>
      ShowProgress(sp, p).current == 0
  {
  }

  /**
   * The index int(progress * (numFrames - 1)) for a sprite with frames: a progress in [0, 1]
   * names a frame (the last one at 1), and a negative or non-finite progress names none but
   * possibly frame 0, so the sprite shows frame 0 either way.
   */
  lemma FrameIndexFacts(p: Progress, frames: nat)
    requires frames > 0
    ensures p.Finite? && 0.0 <= p.value <= 1.0 ==> 0 <= FrameIndex(p, frames) < frames
    ensures p == Finite(1.0) ==> FrameIndex(p, frames) == frames - 1
    ensures p.NotFinite? || p.value < 0.0 ==> FrameIndex(p, frames) <= 0
  {
    if p.Finite? {
      if 0.0 <= p.value <= 1.0 {
        FrameIndexInRange(p.value, frames);
      } else if p.value < 0.0 {
        FrameIndexNegative(p.value, frames);
      }
    }
  }

  lemma FrameIndexInRange(v: real, frames: nat)
    requires frames > 0 && 0.0 <= v <= 1.0
    ensures 0 <= TimeScale.Truncate(v * (frames as real - 1.0)) < frames
    ensures v == 1.0 ==> TimeScale.Truncate(v * (frames as real - 1.0)) == frames - 1
  {
    var b := frames as real - 1.0;
    ScaleWithin(v, b);
    var r := v * b;
    var i := TimeScale.Truncate(r);
    assert i as real <= b;
    assert i as real < frames as real;
  }

  lemma FrameIndexNegative(v: real, frames: nat)
    requires frames > 0 && v < 0.0
    ensures TimeScale.Truncate(v * (frames as real - 1.0)) <= 0
  {
    NegativeScale(v, frames as real - 1.0);
  }

  lemma ScaleWithin(a: real, b: real)
    requires 0.0 <= a <= 1.0 && 0.0 <= b
    ensures 0.0 <= a * b <= b
  {
    assert b - a * b == (1.0 - a) * b;
  }

  lemma NegativeScale(a: real, b: real)
    requires a < 0.0 && 0.0 <= b
    ensures a * b <= 0.0
  {
  }

  /**
   * updateLoadingSpriteFrame as written: it asks the sprite for its frame count, which panics
   * when the Sprite component holds a nil sprite.
   */
  function FrameStepAsWritten(s: Store, sprite: EID, p: Progress): Outcome {
    if sprite !in s || Sprite !in s[sprite] then Done(s)
    else if s[sprite][Sprite].sprite.None? then Panic
    else Done(AddTo(s, sprite, SpriteP(Some(ShowProgress(s[sprite][Sprite].sprite.value, p)))))
  }

  /** updateLoadingSpriteFrame, skipping a nil sprite. */
  function FrameStep(s: Store, sprite: EID, p: Progress): Store {
    if sprite !in s || Sprite !in s[sprite] || s[sprite][Sprite].sprite.None? then s
    else AddTo(s, sprite, SpriteP(Some(ShowProgress(s[sprite][Sprite].sprite.value, p))))
  }

  /** The corrected step agrees with the code wherever the code does not panic, and changes nothing where it does. */
  lemma FrameStepCorrected(s: Store, sprite: EID, p: Progress)
    ensures FrameStepAsWritten(s, sprite, p).Done? ==> FrameStep(s, sprite, p) == FrameStepAsWritten(s, sprite, p).comps
    ensures FrameStepAsWritten(s, sprite, p).Panic? ==> FrameStep(s, sprite, p) == s
  {
  }

  // ---------------------------------------------------------------------------------------------
  // The nil sprite

  /**
   * A loading sprite whose image has neither a DC6 nor a DCC component is committed with a nil
   * sprite and no error; the position and frame steps then call methods on that nil sprite.
   */
  lemma NilSpritePanics(dec: Decoders, p: Progress)
    ensures var st := FactoryState(
        map[0 := map[Position := PositionP(0, 0)],
            1 := map[FilePath := PathP("loading.dc6")],
            2 := map[FilePath := PathP("loading.dat"), Palette := PaletteP(0)],
            3 := map[Viewport := ViewportP(800, 600)]],
        map[0 := QueueEntry(1, 2)]);
      var created := TryCreate(st, 0, dec).comps;
      && 0 in created && Sprite in created[0] && created[0][Sprite] == SpriteP(None)
      && PlaceSpriteAsWritten(created, [3], 0) == Panic
      && FrameStepAsWritten(created, 0, p) == Panic
  {
  }

  // ---------------------------------------------------------------------------------------------
  // One tick of the scene

  /** The scene's own state, with the store and the sprite factory's queue it acts on. */
  datatype Scene = Scene(
    comps: Store,
    nextId: nat,
    queue: map<EID, QueueEntry>,
    baseBooted: bool,
    booted: bool,
    loadingSprite: EID,
    progress: Progress)

  /** Every viewport gets a Priority component holding `priority`, in order. */
  function Prioritise(s: Store, viewports: seq<EID>, priority: int): Store
    decreases |viewports|
  {
    if viewports == [] then s
    else AddTo(Prioritise(s, viewports[..|viewports| - 1], priority), viewports[|viewports| - 1], PriorityP(priority))
  }

  /**
   * boot: the first call boots the base scene only; the second queues the loading sprite at the
   * origin through the sprite factory and marks the scene booted.
   */
  function BootStep(sc: Scene, image: string, palette: string): Scene {
    if !sc.baseBooted then sc.(baseBooted := true)
    else
      var id := sc.nextId;
      sc.(comps := Queued(sc.comps, id, 0, 0, image, palette),
          nextId := id + 3,
          queue := sc.queue[id := QueueEntry(id + 1, id + 2)],
          loadingSprite := id,
          booted := true)
  }

  /** The part of Update after the pause check. */
  function Advance(sc: Scene, viewports: seq<EID>, image: string, palette: string): Scene {
    var b := Booted(sc, image, palette);
    b.(comps := Present(b.comps, viewports, b.loadingSprite), progress := ProgressOf(b.comps))
  }

  /** The boot step, when the scene has not booted yet. */
  function Booted(sc: Scene, image: string, palette: string): Scene {
    if !sc.booted then BootStep(sc, image, palette) else sc
  }

  /** The alpha, position and frame steps, which all see the progress computed first. */
  function Present(s: Store, viewports: seq<EID>, sprite: EID): Store {
    var faded := AlphaUpdate(s, viewports);
    FrameStep(PlaceSprite(faded, viewports, sprite), sprite, ProgressOf(s))
  }

  /** Update. */
  function SceneUpdate(sc: Scene, viewports: seq<EID>, paused: bool, priority: int,
                       image: string, palette: string): Scene
  {
    var prioritised := sc.(comps := Prioritise(sc.comps, viewports, priority));
    if paused then prioritised else Advance(prioritised, viewports, image, palette)
  }

  /** Entity IDs are issued in order: the store and the viewports only hold issued IDs. */
  predicate Issued(sc: Scene, viewports: seq<EID>) {
    && (forall e | e in sc.comps :: e < sc.nextId)
    && (forall i | 0 <= i < |viewports| :: viewports[i] < sc.nextId)
  }

  /**
   * Prioritising the viewports one after the other adds a Priority to each of them (creating the
   * entity's component set if needed) and leaves every other entity as it was.
   */
  lemma {:induction false} PrioritiseEffect(s: Store, viewports: seq<EID>, priority: int)
    ensures var r := Prioritise(s, viewports, priority);
      && (forall e :: e in r <==> e in s || e in viewports)
      && (forall e | e in viewports :: r[e] == Put(ComponentsAt(s, e), PriorityP(priority)))
      && (forall e | e in s && e !in viewports :: r[e] == s[e])
    decreases |viewports|
  {
    if viewports != [] {
      var front := viewports[..|viewports| - 1];
      var last := viewports[|viewports| - 1];
      PrioritiseEffect(s, front, priority);
      assert viewports == front + [last];
      var before := Prioritise(s, front, priority);
      var r := Prioritise(s, viewports, priority);
      assert r == AddTo(before, last, PriorityP(priority));
      assert r[last] == Put(ComponentsAt(s, last), PriorityP(priority)) by {
        if last in front {
          assert before[last] == Put(ComponentsAt(s, last), PriorityP(priority));
        } else if last in s {
          assert before[last] == s[last];
        } else {
          assert last !in before;
        }
      }
    }
  }

  /** Prioritising creates no entity beyond the viewports, so every ID stays issued. */
  lemma PrioritiseIssued(sc: Scene, viewports: seq<EID>, priority: int)
    requires Issued(sc, viewports)
    ensures Issued(sc.(comps := Prioritise(sc.comps, viewports, priority)), viewports)
  {
    PrioritiseEffect(sc.comps, viewports, priority);
  }

  /** No component of kind Priority is removed or changed from `s` to `r`. */
  predicate KeepsPriority(s: Store, r: Store) {
    forall e | e in s && Priority in s[e] :: e in r && Priority in r[e] && r[e][Priority] == s[e][Priority]
  }

  /** Only the first viewport's components change, and only its alpha. */
  lemma AlphaUpdateEffect(s: Store, viewports: seq<EID>)
    ensures var r := AlphaUpdate(s, viewports);
      && r.Keys == s.Keys
      && (forall e | e in s && (|viewports| == 0 || e != viewports[0]) :: r[e] == s[e])
      && (forall e | e in s :: r[e].Keys == s[e].Keys)
      && KeepsPriority(s, r)
  {
    if |viewports| >= 1 && viewports[0] in s && Alpha in s[viewports[0]] {
      var v := viewports[0];
      var c := Put(s[v], AlphaP(StepAlpha(s[v][Alpha].alpha, IsLoading(s))));
      assert AlphaUpdate(s, viewports) == s[v := c];
      assert c.Keys == s[v].Keys;
    }
  }

  /** Only the loading sprite's components change, and only when it holds a Sprite. */
  lemma PlaceSpriteEffect(s: Store, viewports: seq<EID>, sprite: EID)
    ensures var r := PlaceSprite(s, viewports, sprite);
      && r.Keys == s.Keys
      && (forall e | e in s && e != sprite :: r[e] == s[e])
      && (sprite in s && Sprite !in s[sprite] ==> r == s)
      && KeepsPriority(s, r)
  {
  }

  /** The same for the frame step. */
  lemma FrameStepEffect(s: Store, sprite: EID, p: Progress)
    ensures var r := FrameStep(s, sprite, p);
      && r.Keys == s.Keys
      && (forall e | e in s && e != sprite :: r[e] == s[e])
      && (sprite in s && Sprite !in s[sprite] ==> r == s)
      && KeepsPriority(s, r)
  {
  }

  /** Booting adds entities at fresh IDs only. */
  lemma BootStepEffect(sc: Scene, image: string, palette: string)
    requires forall e | e in sc.comps :: e < sc.nextId
    ensures var b := BootStep(sc, image, palette);
      && sc.nextId <= b.nextId
      && (forall e | e in b.comps :: e < b.nextId)
      && (forall e | e in sc.comps :: e in b.comps && b.comps[e] == sc.comps[e])
  {
  }

  /**
   * The steps after boot change only the first viewport and the loading sprite, change no
   * Priority component, and leave a loading sprite without a Sprite component alone.
   */
  lemma PresentEffect(s: Store, viewports: seq<EID>, sprite: EID)
    ensures var r := Present(s, viewports, sprite);
      && r.Keys == s.Keys
      && (forall e | e in s && e != sprite && (|viewports| == 0 || e != viewports[0]) :: r[e] == s[e])
      && KeepsPriority(s, r)
      && (sprite in s && Sprite !in s[sprite] ==> r == AlphaUpdate(s, viewports))
  {
    var faded := AlphaUpdate(s, viewports);
    AlphaUpdateEffect(s, viewports);
    var placed := PlaceSprite(faded, viewports, sprite);
    PlaceSpriteEffect(faded, viewports, sprite);
    FrameStepEffect(placed, sprite, ProgressOf(s));
  }

  /** The steps after the pause check change no Priority component. */
  lemma AdvanceKeepsPriority(sc: Scene, viewports: seq<EID>, image: string, palette: string)
    requires forall e | e in sc.comps :: e < sc.nextId
    ensures KeepsPriority(sc.comps, Advance(sc, viewports, image, palette).comps)
  {
    var b := Booted(sc, image, palette);
    BootStepEffect(sc, image, palette);
    PresentEffect(b.comps, viewports, b.loadingSprite);
  }

  /**
   * After every tick, paused or not, each viewport holds a Priority component with the loading
   * priority.
   */
  lemma ViewportsPrioritised(sc: Scene, viewports: seq<EID>, paused: bool, priority: int,
                             image: string, palette: string)
    requires Issued(sc, viewports)
    ensures var r := SceneUpdate(sc, viewports, paused, priority, image, palette).comps;
      forall i | 0 <= i < |viewports| ::
        viewports[i] in r && Priority in r[viewports[i]] && r[viewports[i]][Priority] == PriorityP(priority)
  {
    var prioritised := sc.(comps := Prioritise(sc.comps, viewports, priority));
    PrioritiseSetsPriority(sc.comps, viewports, priority);
    if !paused {
      PrioritiseIssued(sc, viewports, priority);
      UnpausedTick(sc, viewports, priority, image, palette);
      AdvanceKeepsPriority(prioritised, viewports, image, palette);
    }
  }

  lemma PrioritiseSetsPriority(s: Store, viewports: seq<EID>, priority: int)
    ensures var r := Prioritise(s, viewports, priority);
      forall i | 0 <= i < |viewports| ::
        viewports[i] in r && Priority in r[viewports[i]] && r[viewports[i]][Priority] == PriorityP(priority)
  {
    PrioritiseEffect(s, viewports, priority);
    var r := Prioritise(s, viewports, priority);
    forall i | 0 <= i < |viewports|
      ensures viewports[i] in r && Priority in r[viewports[i]] && r[viewports[i]][Priority] == PriorityP(priority)
    {
      assert viewports[i] in viewports;
    }
  }

  /** While paused, a tick only prioritises the viewports. */
  lemma PausedOnlyPrioritises(sc: Scene, viewports: seq<EID>, priority: int, image: string, palette: string)
    ensures var r := SceneUpdate(sc, viewports, true, priority, image, palette);
      && r.comps == Prioritise(sc.comps, viewports, priority)
      && r.nextId == sc.nextId && r.queue == sc.queue && r.progress == sc.progress
      && r.baseBooted == sc.baseBooted && r.booted == sc.booted && r.loadingSprite == sc.loadingSprite
  {
  }

  /** An unpaused tick prioritises the viewports and then advances. */
  lemma UnpausedTick(sc: Scene, viewports: seq<EID>, priority: int, image: string, palette: string)
    ensures SceneUpdate(sc, viewports, false, priority, image, palette)
         == Advance(sc.(comps := Prioritise(sc.comps, viewports, priority)), viewports, image, palette)
  {
  }

  /** Booting takes two unpaused ticks. On the first, only the base scene boots. */
  lemma FirstTickBootsBase(sc: Scene, viewports: seq<EID>, priority: int, image: string, palette: string)
    requires !sc.booted && !sc.baseBooted
    ensures var r := SceneUpdate(sc, viewports, false, priority, image, palette);
      r.baseBooted && !r.booted && r.nextId == sc.nextId && r.queue == sc.queue
  {
    UnpausedTick(sc, viewports, priority, image, palette);
    BaseBootTick(sc.(comps := Prioritise(sc.comps, viewports, priority)), viewports, image, palette);
  }

  /**
   * On the second, the loading sprite is queued at the next three IDs with one queue entry, and
   * the scene is booted.
   */
  lemma SecondTickQueuesSprite(sc: Scene, viewports: seq<EID>, priority: int, image: string, palette: string)
    requires !sc.booted && sc.baseBooted
    ensures var r := SceneUpdate(sc, viewports, false, priority, image, palette);
      && r.booted && r.loadingSprite == sc.nextId && r.nextId == sc.nextId + 3
      && r.queue == sc.queue[sc.nextId := QueueEntry(sc.nextId + 1, sc.nextId + 2)]
  {
    UnpausedTick(sc, viewports, priority, image, palette);
    SpriteBootTick(sc.(comps := Prioritise(sc.comps, viewports, priority)), viewports, image, palette);
  }

  /** Once booted, no tick queues another sprite or moves the loading sprite's ID. */
  lemma BootedTicksQueueNothing(sc: Scene, viewports: seq<EID>, paused: bool, priority: int,
                                image: string, palette: string)
    requires sc.booted
    ensures var r := SceneUpdate(sc, viewports, paused, priority, image, palette);
      r.booted && r.loadingSprite == sc.loadingSprite && r.nextId == sc.nextId && r.queue == sc.queue
  {
    if !paused {
      UnpausedTick(sc, viewports, priority, image, palette);
      BootedTick(sc.(comps := Prioritise(sc.comps, viewports, priority)), viewports, image, palette);
    }
  }

  /**
   * On the tick that queues it, the loading sprite's entity holds only its Position at the
   * origin, and its image and palette entities only their paths: the sprite factory has not
   * decoded anything yet, so the position and frame steps leave them alone.
   */
  lemma LoadingSpriteQueued(sc: Scene, viewports: seq<EID>, priority: int, image: string, palette: string)
    requires Issued(sc, viewports)
    requires !sc.booted && sc.baseBooted
    ensures var r := SceneUpdate(sc, viewports, false, priority, image, palette).comps;
      && sc.nextId in r && r[sc.nextId] == map[Position := PositionP(0, 0)]
      && sc.nextId + 1 in r && r[sc.nextId + 1] == map[FilePath := PathP(image)]
      && sc.nextId + 2 in r && r[sc.nextId + 2] == map[FilePath := PathP(palette)]
  {
    var prioritised := sc.(comps := Prioritise(sc.comps, viewports, priority));
    PrioritiseIssued(sc, viewports, priority);
    SpriteBootComps(prioritised, viewports, image, palette);
    QueuedSpriteUntouched(prioritised.comps, sc.nextId, viewports, image, palette);
  }

  /** The tick that boots the base scene changes none of the scene's sprite bookkeeping. */
  lemma BaseBootTick(sc: Scene, viewports: seq<EID>, image: string, palette: string)
    requires !sc.booted && !sc.baseBooted
    ensures var r := Advance(sc, viewports, image, palette);
      r.baseBooted && !r.booted && r.nextId == sc.nextId && r.queue == sc.queue
  {
    assert Booted(sc, image, palette) == sc.(baseBooted := true);
  }

  /** The tick that queues the loading sprite: three new IDs and one queue entry. */
  lemma SpriteBootTick(sc: Scene, viewports: seq<EID>, image: string, palette: string)
    requires !sc.booted && sc.baseBooted
    ensures var r := Advance(sc, viewports, image, palette);
      && r.booted && r.loadingSprite == sc.nextId && r.nextId == sc.nextId + 3
      && r.queue == sc.queue[sc.nextId := QueueEntry(sc.nextId + 1, sc.nextId + 2)]
  {
    BootQueuesSprite(sc, image, palette);
    AdvanceKeepsBookkeeping(sc, viewports, image, palette);
  }

  lemma BootQueuesSprite(sc: Scene, image: string, palette: string)
    requires !sc.booted && sc.baseBooted
    ensures var b := Booted(sc, image, palette);
      && b.booted && b.loadingSprite == sc.nextId && b.nextId == sc.nextId + 3
      && b.queue == sc.queue[sc.nextId := QueueEntry(sc.nextId + 1, sc.nextId + 2)]
  {
  }

  /** After boot, a tick changes only the store and the progress. */
  lemma AdvanceKeepsBookkeeping(sc: Scene, viewports: seq<EID>, image: string, palette: string)
    ensures var r := Advance(sc, viewports, image, palette);
      var b := Booted(sc, image, palette);
      && r.queue == b.queue && r.nextId == b.nextId && r.loadingSprite == b.loadingSprite
      && r.booted == b.booted && r.baseBooted == b.baseBooted
  {
  }

  /** On that tick the store is the queued entities, with only the alpha step applied after. */
  lemma SpriteBootComps(sc: Scene, viewports: seq<EID>, image: string, palette: string)
    requires !sc.booted && sc.baseBooted
    ensures Advance(sc, viewports, image, palette).comps
         == AlphaUpdate(Queued(sc.comps, sc.nextId, 0, 0, image, palette), viewports)
  {
    var id := sc.nextId;
    var q := Queued(sc.comps, id, 0, 0, image, palette);
    assert Booted(sc, image, palette).comps == q;
    assert Booted(sc, image, palette).loadingSprite == id;
    assert id in q && Sprite !in q[id];
    PresentEffect(q, viewports, id);
  }

  /** Once booted, a tick queues nothing and keeps the loading sprite. */
  lemma BootedTick(sc: Scene, viewports: seq<EID>, image: string, palette: string)
    requires sc.booted
    ensures var r := Advance(sc, viewports, image, palette);
      r.booted && r.loadingSprite == sc.loadingSprite && r.nextId == sc.nextId && r.queue == sc.queue
  {
  }

  /** Queueing puts the three new entities out of the alpha step's reach. */
  lemma QueuedSpriteUntouched(s: Store, id: EID, viewports: seq<EID>, image: string, palette: string)
    requires forall e | e in s :: e < id
    requires forall i | 0 <= i < |viewports| :: viewports[i] < id
    ensures var r := AlphaUpdate(Queued(s, id, 0, 0, image, palette), viewports);
      && id in r && r[id] == map[Position := PositionP(0, 0)]
      && id + 1 in r && r[id + 1] == map[FilePath := PathP(image)]
      && id + 2 in r && r[id + 2] == map[FilePath := PathP(palette)]
  {
    var q := Queued(s, id, 0, 0, image, palette);
    AlphaUpdateEffect(q, viewports);
    if |viewports| >= 1 {
      assert viewports[0] < id;
    }
  }

  // ---------------------------------------------------------------------------------------------
  // The scene object

  /**
   * The loading scene. `viewports` and `paused` belong to the base scene and are only read here;
   * `priority` is the loading scene's priority and `screenImage`/`screenPalette` the paths of the
   * loading screen's image and palette, all fixed at construction.
   */
  class LoadingScene {
    const world: World
    const sprites: SpriteFactory
    const priority: int
    const screenImage: string
    const screenPalette: string
    var viewports: seq<EID>
    var paused: bool
    var baseBooted: bool
    var booted: bool
    var loadingSprite: EID
    var progress: Progress

    ghost predicate Valid()
      reads this, world, sprites
    {
      && sprites.world == world
      && sprites.Valid()
      && (forall i | 0 <= i < |viewports| :: viewports[i] < world.nextId)
    }

    function State(): Scene
      reads this, world, sprites
    {
      Scene(world.comps, world.nextId, sprites.loadQueue, baseBooted, booted, loadingSprite, progress)
    }

    constructor (world: World, sprites: SpriteFactory, priority: int, screenImage: string, screenPalette: string,
                 viewports: seq<EID>, paused: bool)
      requires sprites.world == world && sprites.Valid()
      requires forall i | 0 <= i < |viewports| :: viewports[i] < world.nextId
      ensures Valid()
      ensures this.world == world && this.sprites == sprites && this.priority == priority
      ensures this.screenImage == screenImage && this.screenPalette == screenPalette
      ensures this.viewports == viewports && this.paused == paused
      ensures !baseBooted && !booted && loadingSprite == 0 && progress == Finite(0.0)
    {
      this.world, this.sprites, this.priority := world, sprites, priority;
      this.screenImage, this.screenPalette := screenImage, screenPalette;
      this.viewports, this.paused := viewports, paused;
      baseBooted, booted, loadingSprite, progress := false, false, 0, Finite(0.0);
    }

    /** Update: every viewport gets the loading priority; then, unless paused, the scene advances. */
    method Update()
      requires Valid()
      modifies this`baseBooted, this`booted, this`loadingSprite, this`progress
      modifies sprites`loadQueue, world`comps, world`nextId
      ensures Valid()
      ensures State() == SceneUpdate(old(State()), viewports, paused, priority, screenImage, screenPalette)
    {
      SetPriorities();
      if paused {
        return;
      }
      AdvanceScene();
    }

    method SetPriorities()
      requires Valid()
      modifies world`comps
      ensures Valid()
      ensures world.comps == Prioritise(old(world.comps), viewports, priority)
    {
      var i := 0;
      while i < |viewports|
        invariant 0 <= i <= |viewports|
        invariant Valid()
        invariant world.comps == Prioritise(old(world.comps), viewports[..i], priority)
      {
        world.AddComponent(viewports[i], PriorityP(priority));
        assert viewports[..i + 1][..i] == viewports[..i];
        i := i + 1;
      }
      assert viewports[..|viewports|] == viewports;
    }

    method AdvanceScene()
      requires Valid()
      modifies this`baseBooted, this`booted, this`loadingSprite, this`progress
      modifies sprites`loadQueue, world`comps, world`nextId
      ensures Valid()
      ensures State() == Advance(old(State()), viewports, screenImage, screenPalette)
    {
      if !booted {
        Boot();
      }
      ghost var b := State();
      UpdateLoadProgress();
      UpdateViewportAlpha();
      UpdateLoadingSpritePosition();
      UpdateLoadingSpriteFrame();
      assert world.comps == Present(b.comps, viewports, b.loadingSprite);
    }

    /** boot */
    method Boot()
      requires Valid()
      modifies this`baseBooted, this`booted, this`loadingSprite, sprites`loadQueue, world`comps, world`nextId
      ensures Valid()
      ensures State() == BootStep(old(State()), screenImage, screenPalette)
    {
      if !baseBooted {
        baseBooted := true;
        return;
      }
      loadingSprite := sprites.QueueSprite(0, 0, screenImage, screenPalette);
      booted := true;
    }

    /** updateLoadProgress */
    method UpdateLoadProgress()
      modifies this`progress
      ensures progress == ProgressOf(world.comps)
    {
      var untyped := |world.Subscription(Stage1)|;
      var unhandled := |world.Subscription(Stage2)|;
      var unparsed := |world.Subscription(Stage3)|;
      var loaded := |world.Subscription(Stage4)|;
      progress := LoadProgress(untyped, unhandled, unparsed, loaded);
    }

    /** updateViewportAlpha */
    method UpdateViewportAlpha()
      requires Valid()
      modifies world`comps
      ensures Valid()
      ensures world.comps == AlphaUpdate(old(world.comps), viewports)
    {
      if |viewports| < 1 {
        return;
      }
      var v := viewports[0];
      if v !in world.comps || Alpha !in world.comps[v] {
        return;
      }
      var alpha := world.comps[v][Alpha].alpha;
      var isLoading := |world.Subscription(Stage1)| > 0 || |world.Subscription(Stage2)| > 0
                       || |world.Subscription(Stage3)| > 0;
      var faded := AlphaP(StepAlpha(alpha, isLoading));
      world.AddComponent(v, faded);
    }

    /** updateLoadingSpritePosition, with the nil-sprite check */
    method UpdateLoadingSpritePosition()
      requires Valid()
      modifies world`comps
      ensures Valid()
      ensures world.comps == PlaceSprite(old(world.comps), viewports, loadingSprite)
    {
      if |viewports| < 1 {
        return;
      }
      var v := viewports[0];
      if v !in world.comps || Viewport !in world.comps[v] {
        return;
      }
      var viewport := world.comps[v][Viewport];
      if loadingSprite !in world.comps || Sprite !in world.comps[loadingSprite] {
        return;
      }
      var sprite := world.comps[loadingSprite][Sprite].sprite;
      if Position !in world.comps[loadingSprite] || sprite.None? {
        return;
      }
      var position := CentredPosition(viewport.width, viewport.height, CurrentFrame(sprite.value));
      world.AddComponent(loadingSprite, position);
    }

    /** updateLoadingSpriteFrame, with the nil-sprite check */
    method UpdateLoadingSpriteFrame()
      requires Valid()
      modifies world`comps
      ensures Valid()
      ensures world.comps == FrameStep(old(world.comps), loadingSprite, progress)
    {
      if loadingSprite !in world.comps || Sprite !in world.comps[loadingSprite] {
        return;
      }
      var sprite := world.comps[loadingSprite][Sprite].sprite;
      if sprite.None? {
        return;
      }
      var shown := SetCurrentFrame(sprite.value, FrameIndex(progress, |sprite.value.frames|));
      if shown.None? {
        shown := SetCurrentFrame(sprite.value, 0);
      }
      var result := if shown.Some? then shown.value else sprite.value;
      world.AddComponent(loadingSprite, SpriteP(Some(result)));
    }
  }
}
