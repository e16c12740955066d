/**
 * The sprite factory system (d2core/d2systems/scene_sprite_system.go).
 *
 * A caller queues a sprite: three fresh entities (the sprite, its image file, its palette file)
 * and a load-queue entry. Each tick the factory
 *  1. tries every queued sprite: once the image and palette have their FilePaths and the palette
 *     its Palette, it decodes the image (DCC preferred over DC6), attaches the Sprite component and
 *     drops the queue entry (on a decode error it first removes all three entities);
 *  2. advances every sprite that has a Texture and refreshes the Texture and Origin;
 *  3. binds every sprite without a Texture to the renderer, if there is one, and attaches the
 *     Texture.
 * Decoding, animation and the renderer are foreign code: the decoders and the animation step
 * are given to the factory, and a sprite object only records its frames, current frame and
 * whether it is bound.
 */
module SpriteSystem {
  import opened Components
  import opened Ecs

  datatype QueueEntry = QueueEntry(spriteImage: EID, spritePalette: EID)

  /** Sprites that still need a renderer surface. */
  const SpritesToRender := Filter({Sprite}, {Texture}, {})

  /** Sprites that have a surface and are refreshed every tick. */
  const SpritesToUpdate := Filter({Sprite, Texture}, {}, {})

  /** What a decoder returns: the sprite (None for nil) and whether it reported an error. */
  datatype Decoded = Decoded(sprite: Option<SpriteObj>, err: bool)

  /** d2sprite.NewDC6Sprite and NewDCCSprite, applied to the image and palette payloads. */
  datatype Decoders = Decoders(dc6: (nat, nat) -> Decoded, dcc: (nat, nat) -> Decoded)

  /** The state the factory changes: the store and its load queue. */
  datatype FactoryState = FactoryState(comps: Store, queue: map<EID, QueueEntry>)

  // ---------------------------------------------------------------------------------------------
  // The abstract sprite object

  /**
   * GetCurrentFrameSize / GetCurrentFrameOffset read this frame; an index that names no frame is
   * taken to read as a 0x0 frame at offset (0, 0).
   */
  function CurrentFrame(s: SpriteObj): Frame {
    if s.current < |s.frames| then s.frames[s.current] else Frame(0, 0, 0, 0)
  }

  /** GetCurrentFrameSurface, taken to give one distinct surface per frame index. */
  function CurrentSurface(s: SpriteObj): Surface {
    FrameSurface(s.current)
  }

  // ---------------------------------------------------------------------------------------------
  // tryCreatingSprite

  function ComponentsAt(s: Store, e: EID): Components {
    if e in s then s[e] else map[]
  }

  /** The queue entry for `id`, or the zero entry a Go map read gives for a missing key. */
  function EntryOf(queue: map<EID, QueueEntry>, id: EID): QueueEntry {
    if id in queue then queue[id] else QueueEntry(0, 0)
  }

  /** The guards of tryCreatingSprite: image FilePath, palette FilePath and palette Palette. */
  predicate Ready(s: Store, entry: QueueEntry) {
    && FilePath in ComponentsAt(s, entry.spriteImage)
    && FilePath in ComponentsAt(s, entry.spritePalette)
    && Palette in ComponentsAt(s, entry.spritePalette)
  }

  /** The two decoder calls in order: a Dc6 result, then a Dcc result overwriting it. */
  function DecodeImage(image: Components, palette: nat, dec: Decoders): Decoded {
    var afterDc6 := if Dc6 in image then dec.dc6(image[Dc6].dc6, palette) else Decoded(None, false);
    if Dcc in image then dec.dcc(image[Dcc].dcc, palette) else afterDc6
  }

  /** tryCreatingSprite on the factory state. */
  function TryCreate(st: FactoryState, id: EID, dec: Decoders): FactoryState {
    var entry := EntryOf(st.queue, id);
    if !Ready(st.comps, entry) then st
    else
      var palette := ComponentsAt(st.comps, entry.spritePalette)[Palette].palette;
      var d := DecodeImage(ComponentsAt(st.comps, entry.spriteImage), palette, dec);
      var cleared := if d.err then Erase(Erase(Erase(st.comps, id), entry.spriteImage), entry.spritePalette)
                     else st.comps;
      FactoryState(AddTo(cleared, id, SpriteP(d.sprite)), st.queue - {id})
  }

  /** The queue loop of Update, for the keys in the order Go's map iteration produced them. */
  function TryCreateAll(st: FactoryState, order: seq<EID>, dec: Decoders): FactoryState
    decreases |order|
  {
    if order == [] then st
    else TryCreate(TryCreateAll(st, order[..|order| - 1], dec), order[|order| - 1], dec)
  }

  // ---------------------------------------------------------------------------------------------
  // updateSprite and tryRenderingSprite on one entity

  /**
   * The Origin updateSprite gives a sprite showing `s`: the current frame's offset, moved up by
   * the frame height unless the sprite is segmented.
   */
  function OriginFor(c: Components, s: SpriteObj): Payload {
    var f := CurrentFrame(s);
    OriginP(f.offsetX, if SegmentedSprite in c then f.offsetY else f.offsetY - f.height)
  }

  /** The sprite `s`, its current surface and its origin, written over the entity's components. */
  function Refresh(c: Components, s: SpriteObj): Components {
    Put(Put(Put(c, SpriteP(Some(s))), TextureP(CurrentSurface(s))), OriginFor(c, s))
  }

  /** updateSprite: with a renderer, a non-nil Sprite and a Texture, advance the animation. */
  function UpdateOne(c: Components, hasRenderer: bool, advance: (SpriteObj, Duration) -> SpriteObj,
                     td: Duration): Components
  {
    if !hasRenderer || Sprite !in c || c[Sprite].sprite.None? || Texture !in c then c
    else Refresh(c, advance(c[Sprite].sprite.value, td))
  }

  /** tryRenderingSprite: with a renderer and a non-nil Sprite, bind it and attach its surface. */
  function RenderOne(c: Components, hasRenderer: bool): Components {
    if !hasRenderer || Sprite !in c || c[Sprite].sprite.None? then c
    else
      var s := c[Sprite].sprite.value.(bound := true);
      Put(Put(c, SpriteP(Some(s))), TextureP(CurrentSurface(s)))
  }

  /** The zero Origin updateSprite adds to a sprite without one is always overwritten. */
  lemma OriginPlaceholder(c: Components, s: SpriteObj)
    requires Origin !in c
    ensures Put(Put(Put(Put(c, OriginP(0, 0)), SpriteP(Some(s))), TextureP(CurrentSurface(s))), OriginFor(c, s))
         == Refresh(c, s)
  {
    var sp, tx, o := SpriteP(Some(s)), TextureP(CurrentSurface(s)), OriginFor(c, s);
    var m: map<Kind, Payload> := c;
    var withSprite := Put(c, sp);
    assert withSprite == m[Sprite := sp];
    assert Put(withSprite, tx) == m[Sprite := sp][Texture := tx];
    var placeholder := Put(c, OriginP(0, 0));
    assert placeholder == m[Origin := OriginP(0, 0)];
    assert Put(placeholder, sp) == m[Origin := OriginP(0, 0)][Sprite := sp];
    assert Put(Put(placeholder, sp), tx) == m[Origin := OriginP(0, 0)][Sprite := sp][Texture := tx];
    OverwrittenFirst(m, Origin, Sprite, Texture, OriginP(0, 0), sp, tx, o);
  }

  /** A key written first and overwritten last leaves no trace. */
  lemma OverwrittenFirst<K, V>(m: map<K, V>, kx: K, ka: K, kb: K, x: V, a: V, b: V, d: V)
    ensures m[kx := x][ka := a][kb := b][kx := d] == m[ka := a][kb := b][kx := d]
  {
    var l := m[kx := x][ka := a][kb := b][kx := d];
    var r := m[ka := a][kb := b][kx := d];
    assert l.Keys == r.Keys;
  }

  function UpdateAll(s: Store, targets: set<EID>, hasRenderer: bool,
                     advance: (SpriteObj, Duration) -> SpriteObj, td: Duration): (r: Store)
    ensures r.Keys == s.Keys
  {
    map e | e in s :: if e in targets then UpdateOne(s[e], hasRenderer, advance, td) else s[e]
  }

  function RenderAll(s: Store, targets: set<EID>, hasRenderer: bool): (r: Store)
    ensures r.Keys == s.Keys
  {
    map e | e in s :: if e in targets then RenderOne(s[e], hasRenderer) else s[e]
  }

  /** Every sprite still waiting for a surface is a nil sprite. */
  predicate OnlyNilToRender(s: Store) {
    forall e | e in Members(s, SpritesToRender) :: s[e][Sprite].sprite.None?
  }

  /** One Update of the factory: the queue loop, then the update loop, then the render loop. */
  function Tick(st: FactoryState, order: seq<EID>, dec: Decoders, hasRenderer: bool,
                advance: (SpriteObj, Duration) -> SpriteObj, td: Duration): FactoryState
  {
    var created := TryCreateAll(st, order, dec);
    var updated := UpdateAll(created.comps, Members(created.comps, SpritesToUpdate), hasRenderer, advance, td);
    var rendered := RenderAll(updated, Members(updated, SpritesToRender), hasRenderer);
    FactoryState(rendered, created.queue)
  }

  /** The store after Sprite(x, y, img, pal) issued the IDs `id`, `id + 1` and `id + 2`. */
  function Queued(s: Store, id: EID, x: int, y: int, img: string, pal: string): Store {
    s[id := map[Position := PositionP(x, y)]]
     [id + 1 := map[FilePath := PathP(img)]]
     [id + 2 := map[FilePath := PathP(pal)]]
  }

  lemma QueuedPointwise(s: Store, r: Store, id: EID, x: int, y: int, img: string, pal: string)
    requires r.Keys == s.Keys + {id, id + 1, id + 2}
    requires r[id] == map[Position := PositionP(x, y)]
    requires r[id + 1] == map[FilePath := PathP(img)]
    requires r[id + 2] == map[FilePath := PathP(pal)]
    requires forall e | e in s && e !in {id, id + 1, id + 2} :: r[e] == s[e]
    ensures r == Queued(s, id, x, y, img, pal)
  {
    var q := Queued(s, id, x, y, img, pal);
    assert r.Keys == q.Keys;
    forall e | e in r
      ensures r[e] == q[e]
    {
      if e !in {id, id + 1, id + 2} {
        assert r[e] == s[e];
      }
    }
  }

  class SpriteFactory {
    const world: World
    const decoders: Decoders
    const advance: (SpriteObj, Duration) -> SpriteObj
    /** RenderSystem != nil && RenderSystem.renderer != nil */
    var hasRenderer: bool
    var loadQueue: map<EID, QueueEntry>

    ghost predicate Valid()
      reads this, world
    {
      world.Valid() && forall id | id in loadQueue :: id < world.nextId
    }

    function State(): FactoryState
      reads this, world
    {
      FactoryState(world.comps, loadQueue)
    }

    /** NewSpriteFactorySubsystem followed by Init: an empty load queue. */
    constructor (w: World, decoders: Decoders, advance: (SpriteObj, Duration) -> SpriteObj,
                 hasRenderer: bool)
      requires w.Valid()
      ensures Valid() && world == w && loadQueue == map[]
      ensures this.decoders == decoders && this.advance == advance && this.hasRenderer == hasRenderer
    {
      this.world := w;
      this.decoders := decoders;
      this.advance := advance;
      this.hasRenderer := hasRenderer;
      loadQueue := map[];
    }

    /** A fresh entity holding the one component `p`. */
    method NewEntityWith(p: Payload) returns (id: EID)
      requires Valid() && WellFormed(p)
      modifies world`comps, world`nextId
      ensures Valid()
      ensures id == old(world.nextId) && world.nextId == id + 1
      ensures world.comps.Keys == old(world.comps).Keys + {id}
      ensures world.comps[id] == map[KindOf(p) := p]
      ensures forall e | e in old(world.comps) :: world.comps[e] == old(world.comps)[e]
    {
      id := world.NewEntity();
      world.AddComponent(id, p);
    }

    /**
     * Sprite: a sprite entity at (x, y), an image and a palette entity holding the two paths, all
     * three fresh, and a queue entry from the sprite to the other two.
     */
    method QueueSprite(x: int, y: int, imgPath: string, palPath: string) returns (spriteID: EID)
      requires Valid()
      modifies this`loadQueue, world`comps, world`nextId
      ensures Valid()
      ensures spriteID == old(world.nextId) && world.nextId == spriteID + 3
      ensures world.comps.Keys == old(world.comps).Keys + {spriteID, spriteID + 1, spriteID + 2}
      ensures world.comps[spriteID] == map[Position := PositionP(x, y)]
      ensures world.comps[spriteID + 1] == map[FilePath := PathP(imgPath)]
      ensures world.comps[spriteID + 2] == map[FilePath := PathP(palPath)]
      ensures forall e | e in old(world.comps) :: world.comps[e] == old(world.comps)[e]
      ensures loadQueue == old(loadQueue)[spriteID := QueueEntry(spriteID + 1, spriteID + 2)]
      ensures world.comps == Queued(old(world.comps), spriteID, x, y, imgPath, palPath)
    {
      spriteID := NewEntityWith(PositionP(x, y));
      // the Go code issues both IDs before adding either path; adding to one fresh entity does
      // not touch the other, so the order of the steps is immaterial here
      var imgID := NewEntityWith(PathP(imgPath));
      var palID := NewEntityWith(PathP(palPath));
      loadQueue := loadQueue[spriteID := QueueEntry(imgID, palID)];
      QueuedPointwise(old(world.comps), world.comps, spriteID, x, y, imgPath, palPath);
    }

    /** SegmentedSprite: everything Sprite does, and a SegmentedSprite component on the sprite. */
    method QueueSegmentedSprite(x: int, y: int, imgPath: string, palPath: string,
                                xseg: int, yseg: int, frame: int) returns (spriteID: EID)
      requires Valid()
      modifies this`loadQueue, world`comps, world`nextId
      ensures Valid()
      ensures spriteID == old(world.nextId) && world.nextId == spriteID + 3
      ensures world.comps.Keys == old(world.comps).Keys + {spriteID, spriteID + 1, spriteID + 2}
      ensures world.comps[spriteID] == map[Position := PositionP(x, y), SegmentedSprite := SegmentedP(xseg, yseg, frame)]
      ensures world.comps[spriteID + 1] == map[FilePath := PathP(imgPath)]
      ensures world.comps[spriteID + 2] == map[FilePath := PathP(palPath)]
      ensures forall e | e in old(world.comps) :: world.comps[e] == old(world.comps)[e]
      ensures loadQueue == old(loadQueue)[spriteID := QueueEntry(spriteID + 1, spriteID + 2)]
    {
      spriteID := QueueSprite(x, y, imgPath, palPath);
      world.AddComponent(spriteID, SegmentedP(xseg, yseg, frame));
    }

    /** tryCreatingSprite */
    method TryCreatingSprite(id: EID)
      requires Valid() && id < world.nextId
      modifies this`loadQueue, world`comps
      ensures Valid()
      ensures State() == TryCreate(old(State()), id, decoders)
    {
      var entry := EntryOf(loadQueue, id);
      var imageID, paletteID := entry.spriteImage, entry.spritePalette;
      var image := ComponentsAt(world.comps, imageID);
      if FilePath !in image {
        return;
      }
      var paletteFile := ComponentsAt(world.comps, paletteID);
      if FilePath !in paletteFile {
        return;
      }
      if Palette !in paletteFile {
        return;
      }
      var palette := paletteFile[Palette].palette;
      var sprite: Option<SpriteObj> := None;
      var err := false;
      if Dc6 in image {
        var d := decoders.dc6(image[Dc6].dc6, palette);
        sprite, err := d.sprite, d.err;
      }
      if Dcc in image {
        var d := decoders.dcc(image[Dcc].dcc, palette);
        sprite, err := d.sprite, d.err;
      }
      if err {
        world.RemoveEntity(id);
        world.RemoveEntity(imageID);
        world.RemoveEntity(paletteID);
      }
      world.AddComponent(id, SpriteP(sprite));
      loadQueue := loadQueue - {id};
    }

    /** updateSprite */
    method UpdateSprite(eid: EID)
      requires world.Valid()
      modifies world`comps
      ensures world.Valid()
      ensures eid in old(world.comps) ==>
        world.comps == old(world.comps)[eid := UpdateOne(old(world.comps)[eid], hasRenderer, advance, world.timeDelta)]
      ensures eid !in old(world.comps) ==> world.comps == old(world.comps)
    {
      if !hasRenderer || eid !in world.comps {
        return;
      }
      var c := world.comps[eid];
      if Sprite !in c || c[Sprite].sprite.None? || Texture !in c {
        assert UpdateOne(c, hasRenderer, advance, world.timeDelta) == c;
        assert world.comps == world.comps[eid := c];
        return;
      }
      var s := advance(c[Sprite].sprite.value, world.timeDelta);
      ShowFrame(eid, c, s);
    }

    /**
     * The second half of updateSprite: make sure there is an Origin, store the advanced sprite,
     * its current surface and its origin.
     */
    method ShowFrame(eid: EID, c: Components, s: SpriteObj)
      requires world.Valid() && eid in world.comps && world.comps[eid] == c
      modifies world`comps
      ensures world.Valid()
      ensures world.comps == old(world.comps)[eid := Refresh(c, s)]
    {
      ghost var start := world.comps;
      assert start == start[eid := c];
      ghost var cur := c;
      if Origin !in c {
        world.AddComponent(eid, OriginP(0, 0));
        AddAfterSet(start, eid, cur, OriginP(0, 0));
        cur := Put(cur, OriginP(0, 0));
      }
      world.AddComponent(eid, SpriteP(Some(s)));
      AddAfterSet(start, eid, cur, SpriteP(Some(s)));
      cur := Put(cur, SpriteP(Some(s)));
      world.AddComponent(eid, TextureP(CurrentSurface(s)));
      AddAfterSet(start, eid, cur, TextureP(CurrentSurface(s)));
      cur := Put(cur, TextureP(CurrentSurface(s)));
      var origin := OriginFor(c, s);
      world.AddComponent(eid, origin);
      AddAfterSet(start, eid, cur, origin);
      cur := Put(cur, origin);
      if Origin !in c {
        OriginPlaceholder(c, s);
      }
    }

    /** tryRenderingSprite */
    method TryRenderingSprite(eid: EID)
      requires world.Valid()
      modifies world`comps
      ensures world.Valid()
      ensures eid in old(world.comps) ==>
        world.comps == old(world.comps)[eid := RenderOne(old(world.comps)[eid], hasRenderer)]
      ensures eid !in old(world.comps) ==> world.comps == old(world.comps)
    {
      if !hasRenderer || eid !in world.comps {
        return;
      }
      var c := world.comps[eid];
      if Sprite !in c || c[Sprite].sprite.None? {
        return;
      }
      var s := c[Sprite].sprite.value.(bound := true);
      world.AddComponent(eid, SpriteP(Some(s)));
      world.AddComponent(eid, TextureP(CurrentSurface(s)));
    }

    /**
     * Update. `order` is the order in which Go's map iteration visits the load queue: every key
     * exactly once.
     */
    method Update(order: seq<EID>)
      requires Valid()
      requires forall i, j | 0 <= i < j < |order| :: order[i] != order[j]
      requires forall i | 0 <= i < |order| :: order[i] in loadQueue
      requires forall id | id in loadQueue :: id in order
      modifies this`loadQueue, world`comps
      ensures Valid()
      ensures State() == Tick(old(State()), order, decoders, hasRenderer, advance, world.timeDelta)
      ensures loadQueue.Keys <= old(loadQueue.Keys)
      ensures hasRenderer ==> OnlyNilToRender(world.comps)
    {
      CreateQueued(order);
      UpdateSprites();
      RenderSprites();
    }

    /** The first loop of Update: try every queued sprite once. */
    method CreateQueued(order: seq<EID>)
      requires Valid()
      requires forall i | 0 <= i < |order| :: order[i] in loadQueue
      modifies this`loadQueue, world`comps
      ensures Valid() && world.nextId == old(world.nextId)
      ensures State() == TryCreateAll(old(State()), order, decoders)
      ensures loadQueue.Keys <= old(loadQueue.Keys)
    {
      ghost var start := State();
      var i := 0;
      while i < |order|
        invariant 0 <= i <= |order|
        invariant Valid()
        invariant world.nextId == old(world.nextId)
        invariant State() == TryCreateAll(start, order[..i], decoders)
        invariant loadQueue.Keys <= old(loadQueue.Keys)
      {
        assert order[..i + 1][..i] == order[..i];
        TryCreatingSprite(order[i]);
        i := i + 1;
      }
      assert order[..i] == order;
    }

    /** The second loop of Update: refresh every sprite that has a surface. */
    method UpdateSprites()
      requires world.Valid()
      modifies world`comps
      ensures world.Valid()
      ensures world.comps
        == UpdateAll(old(world.comps), old(world.Subscription(SpritesToUpdate)), hasRenderer, advance, world.timeDelta)
    {
      var todo := world.Subscription(SpritesToUpdate);
      ghost var targets := todo;
      ghost var done: set<EID> := {};
      ghost var start := world.comps;
      while todo != {}
        invariant world.Valid()
        invariant todo <= targets && done == targets - todo
        invariant world.comps.Keys == start.Keys
        invariant forall e | e in start ::
          world.comps[e] == if e in done then UpdateOne(start[e], hasRenderer, advance, world.timeDelta) else start[e]
        decreases todo
      {
        var e :| e in todo;
        UpdateSprite(e);
        todo, done := todo - {e}, done + {e};
      }
      assert world.comps == UpdateAll(start, targets, hasRenderer, advance, world.timeDelta);
    }

    /** The third loop of Update: give every sprite without a surface one. */
    method RenderSprites()
      requires world.Valid()
      modifies world`comps
      ensures world.Valid()
      ensures world.comps == RenderAll(old(world.comps), old(world.Subscription(SpritesToRender)), hasRenderer)
      ensures hasRenderer ==> OnlyNilToRender(world.comps)
    {
      var todo := world.Subscription(SpritesToRender);
      ghost var targets := todo;
      ghost var done: set<EID> := {};
      ghost var start := world.comps;
      while todo != {}
        invariant world.Valid()
        invariant todo <= targets && done == targets - todo
        invariant world.comps.Keys == start.Keys
        invariant forall e | e in start ::
          world.comps[e] == if e in done then RenderOne(start[e], hasRenderer) else start[e]
        decreases todo
      {
        var e :| e in todo;
        TryRenderingSprite(e);
        todo, done := todo - {e}, done + {e};
      }
      assert world.comps == RenderAll(start, targets, hasRenderer);
      if hasRenderer {
        RenderLoopDrains(start);
      }
    }
  }

  // ---------------------------------------------------------------------------------------------
  // Properties

  /** A sprite is waiting for a surface or being refreshed, never both. */
  lemma SubscriptionsDisjoint(s: Store)
    ensures Members(s, SpritesToRender) !! Members(s, SpritesToUpdate)
  {
  }

  /** Until the image and palette are loaded, tryCreatingSprite changes nothing. */
  lemma WaitsForFiles(st: FactoryState, id: EID, dec: Decoders)
    requires !Ready(st.comps, EntryOf(st.queue, id))
    ensures TryCreate(st, id, dec) == st
  {
  }

  /**
   * The DCC decoder wins when the image has both a Dcc and a Dc6 component; an image with
   * neither yields a nil sprite and no error.
   */
  lemma DecoderChoice(image: Components, palette: nat, dec: Decoders)
    ensures Dcc in image ==> DecodeImage(image, palette, dec) == dec.dcc(image[Dcc].dcc, palette)
    ensures Dcc !in image && Dc6 in image ==> DecodeImage(image, palette, dec) == dec.dc6(image[Dc6].dc6, palette)
    ensures Dcc !in image && Dc6 !in image ==> DecodeImage(image, palette, dec) == Decoded(None, false)
  {
  }

  /**
   * Once the files are loaded the sprite leaves the queue and gets a Sprite component holding
   * what the decoder returned. On a decode error the sprite, image and palette entities are
   * removed first, so the sprite entity is left with the Sprite component alone; without an
   * error no other entity changes.
   */
  lemma CommitsWhenReady(st: FactoryState, id: EID, dec: Decoders)
    requires Ready(st.comps, EntryOf(st.queue, id))
    ensures var entry := EntryOf(st.queue, id);
      var palette := ComponentsAt(st.comps, entry.spritePalette)[Palette].palette;
      var d := DecodeImage(ComponentsAt(st.comps, entry.spriteImage), palette, dec);
      var r := TryCreate(st, id, dec);
      && r.queue == st.queue - {id}
      && r.comps[id][Sprite] == SpriteP(d.sprite)
      && (d.err ==>
            && r.comps[id].Keys == {Sprite}
            && (entry.spriteImage != id ==> entry.spriteImage !in r.comps)
            && (entry.spritePalette != id ==> entry.spritePalette !in r.comps)
            && r.comps.Keys == st.comps.Keys - {entry.spriteImage, entry.spritePalette} + {id})
      && (!d.err ==>
            && r.comps.Keys == st.comps.Keys + {id}
            && r.comps[id] == Put(ComponentsAt(st.comps, id), SpriteP(d.sprite))
            && forall e | e in st.comps && e != id :: r.comps[e] == st.comps[e])
  {
  }

  /**
   * The queue loop only removes entries: every entry left over was there before, with the same
   * image and palette.
   */
  lemma {:induction false} QueueOnlyShrinks(st: FactoryState, order: seq<EID>, dec: Decoders)
    ensures var r := TryCreateAll(st, order, dec);
      r.queue.Keys <= st.queue.Keys && forall id | id in r.queue :: r.queue[id] == st.queue[id]
    decreases |order|
  {
    if order != [] {
      QueueOnlyShrinks(st, order[..|order| - 1], dec);
    }
  }

  /** A queued sprite that is visited while its files are loaded is no longer queued afterwards. */
  lemma {:induction false} VisitedReadyLeavesQueue(st: FactoryState, order: seq<EID>, dec: Decoders, i: nat)
    requires i < |order|
    requires Ready(TryCreateAll(st, order[..i], dec).comps, EntryOf(TryCreateAll(st, order[..i], dec).queue, order[i]))
    ensures order[i] !in TryCreateAll(st, order, dec).queue
    decreases |order|
  {
    if i == |order| - 1 {
      assert order[..i] == order[..|order| - 1];
    } else {
      assert order[..|order| - 1][..i] == order[..i];
      VisitedReadyLeavesQueue(st, order[..|order| - 1], dec, i);
      assert TryCreateAll(st, order, dec).queue
        == TryCreate(TryCreateAll(st, order[..|order| - 1], dec), order[|order| - 1], dec).queue;
    }
  }

  /**
   * updateSprite with a renderer, a non-nil sprite and a surface: the sprite is advanced, the
   * surface is the advanced sprite's current frame, and the Origin is that frame's offset, moved
   * up by the frame height unless the sprite is segmented. Only Sprite, Texture and Origin change,
   * and Origin is added when it was missing.
   */
  lemma UpdateRefreshes(c: Components, hasRenderer: bool, advance: (SpriteObj, Duration) -> SpriteObj,
                        td: Duration)
    requires hasRenderer && Sprite in c && c[Sprite].sprite.Some? && Texture in c
    ensures var next := advance(c[Sprite].sprite.value, td);
      var f := CurrentFrame(next);
      var r := UpdateOne(c, hasRenderer, advance, td);
      && r.Keys == c.Keys + {Origin}
      && r[Sprite] == SpriteP(Some(next))
      && r[Texture] == TextureP(FrameSurface(next.current))
      && r[Origin].ox == f.offsetX
      && r[Origin].oy == f.offsetY - (if SegmentedSprite in c then 0 else f.height)
      && forall k | k in c && k != Sprite && k != Texture && k != Origin :: r[k] == c[k]
  {
    var next := advance(c[Sprite].sprite.value, td);
    var withSprite := Put(c, SpriteP(Some(next)));
    var withTexture := Put(withSprite, TextureP(CurrentSurface(next)));
    assert UpdateOne(c, hasRenderer, advance, td) == Put(withTexture, OriginFor(c, next));
  }

  /** Without a renderer, or without a decoded sprite, updateSprite and tryRenderingSprite do nothing. */
  lemma NothingToDraw(c: Components, hasRenderer: bool, advance: (SpriteObj, Duration) -> SpriteObj,
                      td: Duration)
    requires !hasRenderer || Sprite !in c || c[Sprite].sprite.None?
    ensures UpdateOne(c, hasRenderer, advance, td) == c
    ensures RenderOne(c, hasRenderer) == c
  {
  }

  /**
   * With one surface per frame index (CurrentSurface), when the surface shows the sprite's current
   * frame, updateSprite replaces it exactly when the animation moved to another frame.
   */
  lemma SurfaceChangesWithFrame(c: Components, hasRenderer: bool,
                                advance: (SpriteObj, Duration) -> SpriteObj, td: Duration)
    requires hasRenderer && Sprite in c && c[Sprite].sprite.Some? && Texture in c
    requires c[Texture] == TextureP(CurrentSurface(c[Sprite].sprite.value))
    ensures var before := c[Sprite].sprite.value;
      var changed := UpdateOne(c, hasRenderer, advance, td)[Texture] != c[Texture];
      changed <==> advance(before, td).current != before.current
  {
  }

  /**
   * tryRenderingSprite with a renderer and a non-nil sprite: the sprite is bound to the renderer,
   * keeps its frames and current frame, and the entity gains the surface of that frame.
   */
  lemma RenderBinds(c: Components)
    requires Sprite in c && c[Sprite].sprite.Some?
    ensures var sp := c[Sprite].sprite.value;
      var r := RenderOne(c, true);
      && r.Keys == c.Keys + {Texture}
      && r[Sprite] == SpriteP(Some(sp.(bound := true)))
      && r[Texture] == TextureP(FrameSurface(sp.current))
      && forall k | k in c && k != Sprite && k != Texture :: r[k] == c[k]
  {
  }

  /**
   * After the render loop with a renderer present, the only sprites still waiting for a surface
   * hold a nil sprite.
   */
  lemma RenderLoopDrains(s: Store)
    ensures OnlyNilToRender(RenderAll(s, Members(s, SpritesToRender), true))
  {
    var targets := Members(s, SpritesToRender);
    var r := RenderAll(s, targets, true);
    forall e | e in Members(r, SpritesToRender)
      ensures r[e][Sprite].sprite.None?
    {
      if e !in targets {
        assert false;
      }
    }
  }

  /** The update loop keeps every refreshed sprite in the update subscription. */
  lemma UpdateLoopKeepsSubscription(s: Store, hasRenderer: bool,
                                    advance: (SpriteObj, Duration) -> SpriteObj, td: Duration)
    ensures var r := UpdateAll(s, Members(s, SpritesToUpdate), hasRenderer, advance, td);
      Members(r, SpritesToUpdate) == Members(s, SpritesToUpdate)
  {
  }
}
