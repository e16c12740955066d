# OpenDiablo2 d2systems core, modelled in Dafny

This project models a handful of the entity/component systems in OpenDiablo2's
`d2core/d2systems` package, and proves what they promise. Each system works on an akara world:
a store mapping each entity ID to its components, with at most one component of each kind per
entity. The world also provides subscriptions, which hold the entities whose component kinds
match a filter.

- **File type resolver** (`file_type_resolver.go`)
  - Gives every file entity that has a `FilePath` but no `FileType` a type.
  - The type is MPQ when the path opens as an archive.
  - Otherwise it is the type listed for the path's extension, compared case-insensitively. A
    `.tbl` file is a font table when its path contains `FONT`.
  - Otherwise it is Unknown or Directory, depending on what the filesystem reports.
- **File source resolver** (`file_source_resolver.go`)
  - Gives an MPQ-typed file an archive source when the archive opens, and demotes it to Unknown
    when it does not.
  - Gives a Directory-typed file a filesystem source rooted at its path.
  - `cleanMpqPath` turns a path into an archive path.
- **Sprite factory** (`scene_sprite_system.go`)
  - Queues sprites as three fresh entities: the sprite, its image file and its palette file.
  - Decodes a queued sprite once its files are loaded.
  - Refreshes the surface and origin of every sprite that has a surface.
  - Binds every sprite without a surface to the renderer.
- **Loading screen scene** (`scene_loading_screen.go`)
  - Follows files through four load stages.
  - Gives every viewport the loading priority.
  - Boots in two phases.
  - Computes the load progress.
  - Fades the first viewport's alpha.
  - Centres the loading sprite and shows the frame that matches the progress.
- **Time scale system** (`timescale.go`)
  - Multiplies the world's time delta by a scale that is converted to a `time.Duration`
    beforehand.
- **Movement system**, as `movement_test.go` pins it down
  - Registering it with a world makes it active.
  - A new system is inactive.
  - It subscribes to entities with a Position and a Velocity.
  - A world update of one second adds every such entity's velocity to its position once. The
    tests drive no other time delta; the model takes the step to be the same for every delta.

How the model is organised:

- Module `Components` defines the component kinds and payloads.
- Module `Ecs` defines the store, filters and subscriptions, and the `World` class.
- There is one module per system.
- Systems that update state step by step are classes whose methods change the world, and each
  method is proved against a function of the old state.
- The decisions the systems make are functions, and lemmas about those functions state the
  properties.

Some inputs come from outside the system and are parameters of the model:

- Whether an archive opens, and what `os.Lstat` reports for a path, come from a `Host` value.
- The sprite decoders and the animation step are parameters of the sprite factory.
- Whether a renderer is present is a field of the sprite factory.
- The order in which Go iterates over the sprite load queue is an explicit sequence.

## Model

| member | source | states |
|---|---|---|
| Components.Put | d2core/d2systems/file_type_resolver.go:82 | Adding a component stores it under its kind, overwrites any component of that kind and leaves the other kinds alone |
| Ecs.AddTwice | d2core/d2systems/file_type_resolver.go:82-84 | Adding a component and then another of the same kind leaves the same state as adding only the second, which is how a type written after AddFileType behaves |
| Ecs.AddAfterSet | d2core/d2systems/scene_sprite_system.go:235-249 | Adding to an entity whose components were just set adds to exactly those components |
| Ecs.AddMembership | d2core/d2systems/file_type_resolver.go:43-47 | After a component is added, the entity is in a subscription exactly when its kinds plus the new kind match the filter; no other entity's membership changes, which is why a typed file leaves the resolver's subscription |
| Ecs.EraseMembership | d2core/d2systems/scene_sprite_system.go:177-179 | A removed entity is in no subscription, and every other membership is unchanged |
| Ecs.World.constructor | d2core/d2systems/movement_test.go:19 | A new world has no entities, has issued no IDs and has a zero time delta |
| Ecs.World.NewEntity | d2core/d2systems/movement_test.go:55 | Issues the next unused ID, whose entity has no components; the rest of the store is unchanged |
| Ecs.World.AddComponent | d2core/d2systems/file_type_resolver.go:82 | The store afterwards is the old store with the component added to the entity |
| Ecs.World.RemoveEntity | d2core/d2systems/scene_sprite_system.go:177-179 | The entity leaves the store and every other entity is unchanged |
| FileTypeResolution.Ext | d2core/d2systems/file_type_resolver.go:88 | The extension is never longer than the path |
| FileTypeResolution.ExtSpec | d2core/d2systems/file_type_resolver.go:88 | filepath.Ext: the result is a suffix of the path. It is either empty or starts with its only '.', and holds no '/'. It is empty only when no '.' follows the last '/' |
| FileTypeResolution.Lower | d2core/d2systems/file_type_resolver.go:88 | strings.ToLower, lower-casing each ASCII letter; what the switch relies on is stated by LowerExt and LowerIdempotent |
| FileTypeResolution.LowerExt | d2core/d2systems/file_type_resolver.go:88 | Lower-casing the path and then taking the extension gives the same result as taking the extension and then lower-casing it |
| FileTypeResolution.LowerIdempotent | d2core/d2systems/file_type_resolver.go:88 | Lower-casing twice gives the same result as lower-casing once |
| FileTypeResolution.ExtensionType | d2core/d2systems/file_type_resolver.go:90-121 | The table lists a type exactly for the thirteen listed extensions. It never lists Unknown or Directory, and it lists MPQ exactly for ".mpq" |
| FileTypeResolution.Classify | d2core/d2systems/file_type_resolver.go:83-134 | The type determineFileType assigns: MPQ when the path opens as an archive, else the type listed for the lower-cased extension, else Unknown when Lstat fails and Directory for a directory, and no assignment otherwise. ProbeWins, TableKind, UnlistedExtension and StatOnlyForUnlisted state these cases |
| FileTypeResolution.ResolvedType | d2core/d2systems/file_type_resolver.go:82-135 | The type the FileType component holds afterwards: the one assigned, or the zero value AddFileType gave it when nothing is assigned. Resolve and UnlistedExtension state it |
| FileTypeResolution.Resolve | d2core/d2systems/file_type_resolver.go:76-135 | An entity without a FilePath is unchanged. An entity with one gains a FileType component holding the resolved type, and its other components are unchanged |
| FileTypeResolution.DetermineFileType | d2core/d2systems/file_type_resolver.go:76-135 | The step-by-step writes to the type (zero value, then the archive probe, the table or the filesystem status) leave the store as Resolve on that entity |
| FileTypeResolution.ResolveAt | d2core/d2systems/file_type_resolver.go:76-80 | determineFileType on the store: the entity's components, when it exists, replaced by Resolve of them |
| FileTypeResolution.ResolveAll | d2core/d2systems/file_type_resolver.go:69-73 | The loop of Update: every target resolved, the other entities kept, and the store's entities unchanged |
| FileTypeResolution.Update | d2core/d2systems/file_type_resolver.go:69-73 | Every member of the subscription is resolved once, independently of the order, and the subscription is empty afterwards |
| FileTypeResolution.SubscriptionDrained | d2core/d2systems/file_type_resolver.go:43-47 | Once every member has been resolved, none of them matches the filter any more |
| FileTypeResolution.OnlyUntypedPathsProcessed | d2core/d2systems/file_type_resolver.go:25-28 | The subscription holds exactly the entities with a FilePath and no FileType |
| FileTypeResolution.ProbeWins | d2core/d2systems/file_type_resolver.go:83-86 | A path that opens as an archive is MPQ, whatever its extension |
| FileTypeResolution.ExtensionCaseInsensitive | d2core/d2systems/file_type_resolver.go:88-121 | Two paths that differ only in letter case, open as neither archive and agree on containing FONT get the same listed type |
| FileTypeResolution.Dc6AnyCase | d2core/d2systems/file_type_resolver.go:97-98 | Both "X.DC6" and "x.dc6" are DC6 images |
| FileTypeResolution.TableKind | d2core/d2systems/file_type_resolver.go:109-115 | A ".tbl" file is a font table when its path contains FONT (case-sensitively), and a string table otherwise |
| FileTypeResolution.UnlistedExtension | d2core/d2systems/file_type_resolver.go:122-134 | An unlisted extension gives Unknown when Lstat fails and Directory for a directory. Otherwise nothing is assigned and the type keeps its zero value |
| FileTypeResolution.StatOnlyForUnlisted | d2core/d2systems/file_type_resolver.go:122-134 | Unknown, Directory or no assignment arise only for a path that opens as no archive and whose extension is not listed |
| FileSourceResolution.MakeMpqSource | d2core/d2systems/file_source_resolver.go:139-146 | makeMpqSource fails exactly when the archive does not open, and otherwise gives an archive source for that path |
| FileSourceResolution.MakeFileSystemSource | d2core/d2systems/file_source_resolver.go:113-115 | makeFileSystemSource never fails and is rooted at the given path |
| FileSourceResolution.ProcessSource | d2core/d2systems/file_source_resolver.go:70-110 | Without a path or a type nothing changes. Otherwise only FileType and FileSource can change, and a FileSource can only be added |
| FileSourceResolution.ProcessAt | d2core/d2systems/file_source_resolver.go:70-79 | processSourceEntity on the store: the entity's components, when it exists, replaced by ProcessSource of them, which returns early without a FilePath or a FileType |
| FileSourceResolution.ProcessAll | d2core/d2systems/file_source_resolver.go:62-68 | Processing a set of entities keeps the store's entities |
| FileSourceResolution.ProcessSourceEntity | d2core/d2systems/file_source_resolver.go:70-110 | processSourceEntity's lookups and writes leave the store as ProcessSource on that entity |
| FileSourceResolution.Update | d2core/d2systems/file_source_resolver.go:62-68 | Every subscribed entity is processed once. Afterwards no entity left in the subscription is typed MPQ or Directory |
| FileSourceResolution.NoTypedLeftovers | d2core/d2systems/file_source_resolver.go:81-109 | After the whole subscription is processed, no remaining member is typed MPQ or Directory |
| FileSourceResolution.OutcomeLeavesNoSourcelessArchive | d2core/d2systems/file_source_resolver.go:85-108 | A processed MPQ or Directory file ends with a source or with a type other than MPQ and Directory |
| FileSourceResolution.OnlyTypedSourcelessProcessed | d2core/d2systems/file_source_resolver.go:23-27 | Members of the subscription have a path, a type and no source |
| FileSourceResolution.UnknownUnchanged | d2core/d2systems/file_source_resolver.go:82-84 | An Unknown type changes nothing |
| FileSourceResolution.MpqOutcome | d2core/d2systems/file_source_resolver.go:85-96 | If the archive opens, an MPQ file gains an archive source for its path and stays MPQ. Otherwise it becomes Unknown and gains no component |
| FileSourceResolution.DirectoryAlwaysSourced | d2core/d2systems/file_source_resolver.go:97-108 | A Directory file always gains a filesystem source rooted at its path and stays Directory |
| FileSourceResolution.OtherTypesUnchanged | d2core/d2systems/file_source_resolver.go:81-109 | Any type other than Unknown, MPQ and Directory leaves the entity unchanged |
| FileSourceResolution.PipelineOutcomes | d2core/d2systems/file_source_resolver.go:85-108 | Type resolution and then source resolution on a new file entity: an opened archive gets an archive source. A ".mpq" path that does not open ends Unknown without a source. A directory gets a filesystem source |
| FileSourceResolution.ReplaceSlashes | d2core/d2systems/file_source_resolver.go:162 | strings.ReplaceAll turns every '/' into '\' and keeps every other character |
| FileSourceResolution.CleanMpqPath | d2core/d2systems/file_source_resolver.go:161-169 | The archive path contains no '/'. It is one character shorter exactly when the path starts with '/' or '\'. The remaining characters are the path's own with slashes turned |
| FileSourceResolution.CleanMpqPathLength | d2core/d2systems/file_source_resolver.go:164-166 | The leading character is dropped exactly when the rewritten path starts with '\' |
| FileSourceResolution.CleanMpqPathStable | d2core/d2systems/file_source_resolver.go:161-169 | Cleaning an already cleaned path that does not start with '\' changes nothing |
| SpriteSystem.OriginPlaceholder | d2core/d2systems/scene_sprite_system.go:235-250 | The zero Origin added for a sprite without one is overwritten, so the result is the same as refreshing directly |
| SpriteSystem.CurrentFrame | d2core/d2systems/scene_sprite_system.go:244-248 | The frame GetCurrentFrameOffset and GetCurrentFrameSize read: the current frame, and a 0x0 frame at offset (0, 0) when the current index names no frame, an assumption about the sprite library (see "## Left out") |
| SpriteSystem.CurrentSurface | d2core/d2systems/scene_sprite_system.go:207 | GetCurrentFrameSurface, taken to be the surface of the sprite's current frame index |
| SpriteSystem.DecodeImage | d2core/d2systems/scene_sprite_system.go:162-172 | The Dc6 decoder's result, replaced by the Dcc decoder's when the image has a Dcc component. DecoderChoice states its cases |
| SpriteSystem.EntryOf | d2core/d2systems/scene_sprite_system.go:144-145 | The load queue read: the entry for the ID, or the zero entry a Go map gives for a missing key |
| SpriteSystem.Ready | d2core/d2systems/scene_sprite_system.go:147-160 | The three guards of tryCreatingSprite: the image has a FilePath, and the palette has a FilePath and a Palette. WaitsForFiles states what happens when they fail |
| SpriteSystem.TryCreate | d2core/d2systems/scene_sprite_system.go:143-185 | tryCreatingSprite on the store and queue: nothing until the files are ready, then decode; on an error remove the three entities; commit the sprite and drop the queue entry. WaitsForFiles and CommitsWhenReady state it |
| SpriteSystem.TryCreateAll | d2core/d2systems/scene_sprite_system.go:98-100 | The queue loop: tryCreatingSprite on each key in the iteration order. QueueOnlyShrinks and VisitedReadyLeavesQueue state its effect |
| SpriteSystem.OriginFor | d2core/d2systems/scene_sprite_system.go:244-250 | The origin updateSprite writes: the current frame's offset, moved up by the frame height unless the sprite is segmented |
| SpriteSystem.Refresh | d2core/d2systems/scene_sprite_system.go:235-250 | The advanced sprite, its current surface and its origin written over the entity. OriginPlaceholder and UpdateRefreshes state its effect |
| SpriteSystem.UpdateOne | d2core/d2systems/scene_sprite_system.go:212-251 | updateSprite on one entity: nothing without a renderer, a Sprite, a non-nil sprite or a Texture; otherwise Refresh of the advanced sprite. UpdateRefreshes and NothingToDraw state it |
| SpriteSystem.RenderOne | d2core/d2systems/scene_sprite_system.go:187-210 | tryRenderingSprite on one entity: nothing without a renderer, a Sprite or a non-nil sprite; otherwise bind it and add its surface. RenderBinds and NothingToDraw state it |
| SpriteSystem.Tick | d2core/d2systems/scene_sprite_system.go:97-109 | Update on the store and queue: the queue loop, then the update loop, then the render loop, each over its subscription as the previous loop left it |
| SpriteSystem.UpdateAll | d2core/d2systems/scene_sprite_system.go:102-104 | The update loop keeps the store's entities |
| SpriteSystem.RenderAll | d2core/d2systems/scene_sprite_system.go:106-108 | The render loop keeps the store's entities |
| SpriteSystem.SpriteFactory.constructor | d2core/d2systems/scene_sprite_system.go:57-66 | The factory starts with an empty load queue on the given world |
| SpriteSystem.SpriteFactory.NewEntityWith | d2core/d2systems/scene_sprite_system.go:113-116 | A fresh entity holding exactly one component; the other entities are unchanged |
| SpriteSystem.SpriteFactory.QueueSprite | d2core/d2systems/scene_sprite_system.go:112-128 | Three fresh IDs hold the sprite's Position and the image and palette paths. The queue maps the sprite to the other two, and nothing else changes |
| SpriteSystem.SpriteFactory.QueueSegmentedSprite | d2core/d2systems/scene_sprite_system.go:132-141 | Everything Sprite does, and the sprite also holds the segment counts and frame offset |
| SpriteSystem.SpriteFactory.TryCreatingSprite | d2core/d2systems/scene_sprite_system.go:143-185 | The store and queue afterwards are TryCreate of the old ones |
| SpriteSystem.SpriteFactory.UpdateSprite | d2core/d2systems/scene_sprite_system.go:212-251 | Only the entity changes, to UpdateOne of its old components |
| SpriteSystem.SpriteFactory.ShowFrame | d2core/d2systems/scene_sprite_system.go:235-250 | Writing the origin placeholder, the sprite, the surface and the origin leaves the entity as Refresh of its components |
| SpriteSystem.SpriteFactory.TryRenderingSprite | d2core/d2systems/scene_sprite_system.go:187-210 | Only the entity changes, to RenderOne of its old components |
| SpriteSystem.SpriteFactory.Update | d2core/d2systems/scene_sprite_system.go:97-109 | One tick is the queue loop, then the update loop, then the render loop. The queue only loses entries, and with a renderer the only sprites left without a surface are nil ones |
| SpriteSystem.SpriteFactory.CreateQueued | d2core/d2systems/scene_sprite_system.go:98-100 | Every queued sprite is tried once, in the iteration order, and the queue only loses keys |
| SpriteSystem.SpriteFactory.UpdateSprites | d2core/d2systems/scene_sprite_system.go:102-104 | Every sprite with a surface is updated once |
| SpriteSystem.SpriteFactory.RenderSprites | d2core/d2systems/scene_sprite_system.go:106-108 | Every sprite without a surface is offered to the renderer once. With a renderer, only nil sprites remain without a surface |
| SpriteSystem.SubscriptionsDisjoint | d2core/d2systems/scene_sprite_system.go:80-93 | A sprite is waiting for a surface or being refreshed, never both |
| SpriteSystem.WaitsForFiles | d2core/d2systems/scene_sprite_system.go:147-160 | Until both paths and the palette are loaded, tryCreatingSprite changes nothing |
| SpriteSystem.DecoderChoice | d2core/d2systems/scene_sprite_system.go:162-172 | A DCC image wins over a DC6 image. An image with neither decodes to a nil sprite without an error |
| SpriteSystem.CommitsWhenReady | d2core/d2systems/scene_sprite_system.go:174-184 | A ready sprite leaves the queue and holds the decoded sprite. After an error the sprite, image and palette entities are removed first; without one, no other entity changes |
| SpriteSystem.QueueOnlyShrinks | d2core/d2systems/scene_sprite_system.go:98-100 | The queue loop only removes entries and never changes one |
| SpriteSystem.VisitedReadyLeavesQueue | d2core/d2systems/scene_sprite_system.go:98-100 | A queued sprite that is visited while its files are loaded is no longer queued after the loop |
| SpriteSystem.UpdateRefreshes | d2core/d2systems/scene_sprite_system.go:235-250 | The sprite is advanced, and the surface is its current frame. The origin is that frame's offset, moved up by the frame height unless the sprite is segmented. Only Sprite, Texture and Origin change |
| SpriteSystem.NothingToDraw | d2core/d2systems/scene_sprite_system.go:187-228 | Without a renderer, a Sprite, or a non-nil sprite, updating and rendering change nothing |
| SpriteSystem.SurfaceChangesWithFrame | d2core/d2systems/scene_sprite_system.go:240-242 | With one distinct surface per frame index (an assumption about the sprite library), the surface changes exactly when the animation moved to another frame |
| SpriteSystem.RenderBinds | d2core/d2systems/scene_sprite_system.go:205-209 | The sprite is bound with its frames and current frame kept, and the entity gains that frame's surface |
| SpriteSystem.RenderLoopDrains | d2core/d2systems/scene_sprite_system.go:106-108 | With a renderer, after the render loop only nil sprites are still waiting for a surface |
| SpriteSystem.UpdateLoopKeepsSubscription | d2core/d2systems/scene_sprite_system.go:86-89 | The update loop keeps exactly the same sprites in the update subscription |
| LoadingScreen.StagesDisjoint | d2core/d2systems/scene_loading_screen.go:59-146 | The three loading stages are pairwise disjoint. Stages 1 and 2 are disjoint from the loaded stage, and stage 3 lies inside it |
| LoadingScreen.FilesCovered | d2core/d2systems/scene_loading_screen.go:59-146 | Every file entity is in stage 1, stage 2 or the loaded stage |
| LoadingScreen.IsLoading | d2core/d2systems/scene_loading_screen.go:211-213 | Some entity is in stage 1, 2 or 3. LoadingMeansPipeline characterises it by components |
| LoadingScreen.LoadingMeansPipeline | d2core/d2systems/scene_loading_screen.go:211-213 | The scene is loading exactly when some file has a path, no source, no parsed asset and no handle without a type |
| LoadingScreen.LoadProgress | d2core/d2systems/scene_loading_screen.go:192-199 | The progress is not a finite number exactly when nothing is loaded |
| LoadingScreen.ProgressOf | d2core/d2systems/scene_loading_screen.go:192-199 | updateLoadProgress on the store: LoadProgress of the sizes of the four stages |
| LoadingScreen.ProgressBounds | d2core/d2systems/scene_loading_screen.go:198 | The progress is at most 1, and it equals 1 exactly when nothing is in the first three stages. It is at least 0 when the three counts total at most three times the loaded count |
| LoadingScreen.StepAlpha | d2core/d2systems/scene_loading_screen.go:215-219 | The alpha plus one eighth, at most 1, while loading; minus one eighth, at least 0, otherwise. AlphaStep and AlphaSettles state its effect |
| LoadingScreen.AlphaUpdate | d2core/d2systems/scene_loading_screen.go:201-220 | updateViewportAlpha: steps the first viewport's Alpha when there is one. AlphaUpdateEffect states what it leaves alone |
| LoadingScreen.AlphaStep | d2core/d2systems/scene_loading_screen.go:215-219 | An alpha in [0, 1] stays there, moving one eighth toward 1 while loading and toward 0 otherwise unless it reaches the bound |
| LoadingScreen.AlphaSettles | d2core/d2systems/scene_loading_screen.go:215-219 | n steps move the alpha at least n eighths, within [0, 1], and eight steps fade it fully in or out |
| LoadingScreen.Half | d2core/d2systems/scene_loading_screen.go:242 | Go's integer halving: twice the result is the number itself or one nearer zero, so -3 halves to -1 |
| LoadingScreen.CentredPosition | d2core/d2systems/scene_loading_screen.go:242-246 | The sprite's position: half the viewport width less half the frame width, and half the viewport height plus half the frame height, each halved as Go does. Centred states its meaning |
| LoadingScreen.Centred | d2core/d2systems/scene_loading_screen.go:242-246 | The frame is centred horizontally to within a pixel, and its bottom edge lies half a frame below the centre |
| LoadingScreen.PlaceSpriteAsWritten | d2core/d2systems/scene_loading_screen.go:222-247 | updateLoadingSpritePosition as written: with a viewport, a Sprite and a Position, it panics on a nil sprite and otherwise centres the current frame. NilSpritePanics exhibits the panic |
| LoadingScreen.PlaceSprite | d2core/d2systems/scene_loading_screen.go:222-247 | The same step, skipping a nil sprite. PlaceSpriteCorrected and PlaceSpriteEffect state it |
| LoadingScreen.PlaceSpriteCorrected | d2core/d2systems/scene_loading_screen.go:222-247 | Where the position step as written does not panic, the nil-checking step agrees with it; where it panics, the nil-checking step changes nothing |
| LoadingScreen.SetCurrentFrame | d2core/d2systems/scene_loading_screen.go:256 | Succeeds exactly for an index that names a frame, and then changes only the current frame |
| LoadingScreen.ShowProgressFrame | d2core/d2systems/scene_loading_screen.go:255-258 | Only the current frame changes. A sprite with frames ends on one of them: the progress frame when it exists, and frame 0 otherwise |
| LoadingScreen.ShowProgress | d2core/d2systems/scene_loading_screen.go:255-258 | SetCurrentFrame with the progress frame, falling back to frame 0 when that fails. ShowProgressFrame states its effect |
| LoadingScreen.FrameIndex | d2core/d2systems/scene_loading_screen.go:255-256 | int(progress * (numFrames - 1)), truncating toward zero; a non-finite progress gives the smallest int64. FrameIndexFacts, FrameIndexInRange and FrameIndexNegative state its range |
| LoadingScreen.FrameIndexFacts | d2core/d2systems/scene_loading_screen.go:256 | A progress in [0, 1] names a frame, and a progress of 1 names the last. A negative or non-finite progress names no frame after frame 0 |
| LoadingScreen.FrameIndexInRange | d2core/d2systems/scene_loading_screen.go:256 | For a progress in [0, 1], truncating progress times (frames - 1) gives a frame index |
| LoadingScreen.FrameIndexNegative | d2core/d2systems/scene_loading_screen.go:256 | A negative progress gives an index of at most 0 |
| LoadingScreen.FrameStepAsWritten | d2core/d2systems/scene_loading_screen.go:249-259 | updateLoadingSpriteFrame as written: with a Sprite, it panics on a nil sprite and otherwise shows the progress frame or frame 0. NilSpritePanics exhibits the panic |
| LoadingScreen.FrameStep | d2core/d2systems/scene_loading_screen.go:249-259 | The same step, skipping a nil sprite. FrameStepCorrected and FrameStepEffect state it |
| LoadingScreen.FrameStepCorrected | d2core/d2systems/scene_loading_screen.go:249-259 | Where the frame step as written does not panic, the nil-checking step agrees with it; where it panics, the nil-checking step changes nothing |
| LoadingScreen.NilSpritePanics | d2core/d2systems/scene_loading_screen.go:243 | A loading sprite whose image has no DC6 or DCC component is committed with a nil sprite, and both the position and the frame step as written then panic |
| LoadingScreen.Prioritise | d2core/d2systems/scene_loading_screen.go:172-174 | The priority loop: each viewport in order gets a Priority holding the loading priority. PrioritiseEffect states it |
| LoadingScreen.BootStep | d2core/d2systems/scene_loading_screen.go:154-168 | boot: the first call boots the base scene; the second queues the loading sprite at the origin and marks the scene booted. BootStepEffect, BaseBootTick and BootQueuesSprite state it |
| LoadingScreen.SceneUpdate | d2core/d2systems/scene_loading_screen.go:171-190 | Update: prioritise the viewports; unless paused, boot if needed, compute the progress, then the alpha, position and frame steps. The tick lemmas below state its effect |
| LoadingScreen.Advance | d2core/d2systems/scene_loading_screen.go:180-187 | The part of Update after the pause check: boot if needed, compute the progress from the booted store, then present. AdvanceKeepsPriority and AdvanceKeepsBookkeeping state it |
| LoadingScreen.Booted | d2core/d2systems/scene_loading_screen.go:180-182 | BootStep when the scene has not booted yet, and the scene unchanged otherwise. BootedTick states it |
| LoadingScreen.Present | d2core/d2systems/scene_loading_screen.go:185-187 | The alpha, position and frame steps in order, the frame step using the progress of the store before them. PresentEffect states it |
| LoadingScreen.PrioritiseEffect | d2core/d2systems/scene_loading_screen.go:172-174 | Every viewport gains the Priority, created if needed, and every other entity is unchanged |
| LoadingScreen.PrioritiseIssued | d2core/d2systems/scene_loading_screen.go:172-174 | Prioritising creates no entity outside the issued IDs |
| LoadingScreen.PrioritiseSetsPriority | d2core/d2systems/scene_loading_screen.go:172-174 | Every viewport holds the loading priority afterwards |
| LoadingScreen.AlphaUpdateEffect | d2core/d2systems/scene_loading_screen.go:201-220 | Only the first viewport changes, it keeps its kinds, and no Priority changes |
| LoadingScreen.PlaceSpriteEffect | d2core/d2systems/scene_loading_screen.go:222-247 | Only the loading sprite changes, and only when it holds a Sprite. No Priority changes |
| LoadingScreen.FrameStepEffect | d2core/d2systems/scene_loading_screen.go:249-259 | Only the loading sprite changes, and only when it holds a Sprite. No Priority changes |
| LoadingScreen.BootStepEffect | d2core/d2systems/scene_loading_screen.go:154-168 | Booting only adds entities at fresh IDs |
| LoadingScreen.PresentEffect | d2core/d2systems/scene_loading_screen.go:184-187 | The alpha, position and frame steps change only the first viewport and the loading sprite, and no Priority. A sprite without a Sprite component is left alone |
| LoadingScreen.AdvanceKeepsPriority | d2core/d2systems/scene_loading_screen.go:180-189 | The steps after the pause check change no Priority |
| LoadingScreen.ViewportsPrioritised | d2core/d2systems/scene_loading_screen.go:171-190 | After every tick, paused or not, each viewport holds the loading priority |
| LoadingScreen.PausedOnlyPrioritises | d2core/d2systems/scene_loading_screen.go:176-178 | A paused tick only prioritises the viewports |
| LoadingScreen.UnpausedTick | d2core/d2systems/scene_loading_screen.go:171-190 | An unpaused tick prioritises the viewports and then advances |
| LoadingScreen.FirstTickBootsBase | d2core/d2systems/scene_loading_screen.go:154-158 | The first unpaused tick boots only the base scene and queues nothing |
| LoadingScreen.SecondTickQueuesSprite | d2core/d2systems/scene_loading_screen.go:160-168 | The second tick queues the loading sprite at the next three IDs with one queue entry, and marks the scene booted |
| LoadingScreen.BootedTicksQueueNothing | d2core/d2systems/scene_loading_screen.go:180-182 | Once booted, no tick queues another sprite or changes the loading sprite's ID |
| LoadingScreen.LoadingSpriteQueued | d2core/d2systems/scene_loading_screen.go:165-168 | On the tick that queues it, the loading sprite holds only its Position at the origin, and its image and palette entities hold only their paths |
| LoadingScreen.BaseBootTick | d2core/d2systems/scene_loading_screen.go:155-158 | Booting the base scene changes none of the sprite bookkeeping |
| LoadingScreen.SpriteBootTick | d2core/d2systems/scene_loading_screen.go:160-167 | The booting tick uses three new IDs and adds one queue entry |
| LoadingScreen.BootQueuesSprite | d2core/d2systems/scene_loading_screen.go:160-163 | The second boot call queues the sprite at the next ID and marks the scene booted |
| LoadingScreen.AdvanceKeepsBookkeeping | d2core/d2systems/scene_loading_screen.go:184-187 | After boot, a tick changes only the store and the progress |
| LoadingScreen.SpriteBootComps | d2core/d2systems/scene_loading_screen.go:180-187 | On the booting tick, the store is the queued entities with only the alpha step applied |
| LoadingScreen.BootedTick | d2core/d2systems/scene_loading_screen.go:180-182 | A booted scene does not boot again |
| LoadingScreen.QueuedSpriteUntouched | d2core/d2systems/scene_loading_screen.go:201-220 | The alpha step does not touch the three newly queued entities |
| LoadingScreen.LoadingScene.constructor | d2core/d2systems/scene_loading_screen.go:23-29 | A new scene is not booted and has progress 0 |
| LoadingScreen.LoadingScene.Update | d2core/d2systems/scene_loading_screen.go:171-190 | The scene's state afterwards is SceneUpdate of the old state |
| LoadingScreen.LoadingScene.SetPriorities | d2core/d2systems/scene_loading_screen.go:172-174 | The loop gives each viewport the priority in order |
| LoadingScreen.LoadingScene.AdvanceScene | d2core/d2systems/scene_loading_screen.go:180-189 | Boot if needed, then the progress, alpha, position and frame steps |
| LoadingScreen.LoadingScene.Boot | d2core/d2systems/scene_loading_screen.go:154-163 | The state afterwards is BootStep of the old state |
| LoadingScreen.LoadingScene.UpdateLoadProgress | d2core/d2systems/scene_loading_screen.go:192-199 | The progress is computed from the four stage sizes |
| LoadingScreen.LoadingScene.UpdateViewportAlpha | d2core/d2systems/scene_loading_screen.go:201-220 | The store afterwards is AlphaUpdate of the old store |
| LoadingScreen.LoadingScene.UpdateLoadingSpritePosition | d2core/d2systems/scene_loading_screen.go:222-247 | The store afterwards is PlaceSprite of the old store, the corrected step |
| LoadingScreen.LoadingScene.UpdateLoadingSpriteFrame | d2core/d2systems/scene_loading_screen.go:249-259 | The store afterwards is FrameStep of the old store, the corrected step |
| TimeScale.Wrap64 | d2core/d2systems/timescale.go:45 | An int64 product wraps around modulo 2^64 and is unchanged when it is in range |
| TimeScale.Truncate | d2core/d2systems/timescale.go:45 | time.Duration(scale) and int(x) truncate toward zero |
| TimeScale.Scaled | d2core/d2systems/timescale.go:45 | The delta times time.Duration(scale), wrapped to int64. DefaultScaleKeepsDelta and ScaleIsTruncated state its effect |
| TimeScale.DefaultScaleKeepsDelta | d2core/d2systems/timescale.go:34-37 | The default scale leaves the time delta as it is |
| TimeScale.ScaleIsTruncated | d2core/d2systems/timescale.go:45 | A scale strictly between -1 and 1 stops time, and a scale in [1, 2) acts as 1. A whole scale whose product fits multiplies the delta exactly |
| TimeScale.TimeScaleSystem.constructor | d2core/d2systems/timescale.go:14-20 | A new system has no world and a zero scale, and is inactive |
| TimeScale.TimeScaleSystem.SetActive | d2core/d2systems/timescale.go:41 | Sets the flag that Process checks |
| TimeScale.TimeScaleSystem.Init | d2core/d2systems/timescale.go:34-37 | Remembers the world and sets the default scale |
| TimeScale.TimeScaleSystem.Process | d2core/d2systems/timescale.go:40-46 | An inactive system leaves the delta alone; an active one replaces it with the scaled delta |
| Movement.Advanced | d2core/d2systems/movement_test.go:112 | The new position is a Position payload |
| Movement.Step | d2core/d2systems/movement_test.go:109-115 | One entity's movement step: the position plus the velocity when it has both. StepEffect and StepMoves state it |
| Movement.Tick | d2core/d2systems/movement_test.go:110 | One movement update: every member of the movement subscription takes one step, whatever the time delta (see "## Left out"). TickSteps states it |
| Movement.StepEffect | d2core/d2systems/movement_test.go:109-115 | A step adds the velocity to the position when the entity has both, changes nothing else, and keeps the entity's kinds |
| Movement.TickSteps | d2core/d2systems/movement_test.go:109-115 | One update steps every entity of the store |
| Movement.MovedKeepsSubscriptions | d2core/d2systems/movement_test.go:66-68 | Moving changes no subscription |
| Movement.TicksRepeat | d2core/d2systems/movement_test.go:110 | After n updates every entity has taken n steps |
| Movement.DisplacedLinear | d2core/d2systems/movement_test.go:112 | n steps of velocity v move a coordinate by n * v |
| Movement.StepMoves | d2core/d2systems/movement_test.go:112 | One step moves (x, y) with velocity (vx, vy) to (x + vx, y + vy) |
| Movement.RepeatMoves | d2core/d2systems/movement_test.go:109-115 | n steps displace the position n times by the velocity and keep the velocity |
| Movement.TicksMove | d2core/d2systems/movement_test.go:109-115 | After n updates the entity is displaced n times by its velocity |
| Movement.TicksKeepSubscriptions | d2core/d2systems/movement_test.go:66-68 | Updates change no subscription |
| Movement.MovementSystem.constructor | d2core/d2systems/movement_test.go:26-32 | A new movement system has no world and is inactive |
| Movement.MovementSystem.SetActive | d2core/d2systems/movement_test.go:34-42 | Sets the activity flag |
| Movement.MovementSystem.Init | d2core/d2systems/movement_test.go:14-24 | Registration remembers the world and activates the system |
| Movement.MovementSystem.AddPosition | d2core/d2systems/movement_test.go:57 | Adds a zero position |
| Movement.MovementSystem.AddVelocity | d2core/d2systems/movement_test.go:58 | Adds a zero velocity |
| Movement.MovementSystem.Update | d2core/d2systems/movement_test.go:109-115 | The store afterwards is one movement update of the old store |
| Movement.MoveSubscribed | d2core/d2systems/movement_test.go:109-115 | The loop over the subscription gives one movement update |
| Movement.MoveEntity | d2core/d2systems/movement_test.go:109-115 | One entity takes one step |
| Movement.Scheduler.constructor | d2core/d2systems/movement_test.go:15-19 | A new world has no entities and no systems |
| Movement.Scheduler.With | d2core/d2systems/movement_test.go:17 | A registered system is appended, set up on the world and active |
| Movement.Scheduler.Update | d2core/d2systems/movement_test.go:110 | Records the time delta and applies one movement update per active system |
| Movement.RegisterOne | d2core/d2systems/movement_test.go:14-24 | A world configured with one system holds exactly one |
| Movement.ActivityAtCreation | d2core/d2systems/movement_test.go:26-42 | A system is inactive at creation and after SetActive(false) |
| Movement.AddThenSet | d2core/d2systems/movement_test.go:57-64 | Adding zero components and then setting them gives exactly the set values |
| Movement.OneSystemWorld | d2core/d2systems/movement_test.go:45-53 | A new world configured with one active movement system |
| Movement.AddMovingEntity | d2core/d2systems/movement_test.go:55-64 | The new entity holds exactly the position and velocity set |
| Movement.NewMovingWorld | d2core/d2systems/movement_test.go:44-64 | The shared set-up: one system and one entity with the given position and velocity |
| Movement.EntityAdded | d2core/d2systems/movement_test.go:44-83 | The entity is the one member of the subscription, and its position and velocity read back as set |
| Movement.OneUpdate | d2core/d2systems/movement_test.go:85-116 | One world update of time.Second moves the entity from (px, py) to (px + vx, py + vy) |

## Findings

| source | as written | input that shows it | evidently intended | confidence | as-written member | corrected member |
|---|---|---|---|---|---|---|
| d2core/d2systems/scene_loading_screen.go:232-246 | updateLoadingSpritePosition calls GetCurrentFrameSize on the Sprite component without checking for a nil sprite. tryCreatingSprite commits a nil sprite, with no error, when the image has neither a Dc6 nor a Dcc component yet. | The store of LoadingScreen.NilSpritePanics: the loading sprite is queued, its palette is loaded and its image has only a path | Skip a nil sprite, as tryRenderingSprite and updateSprite do. The corrected step agrees with the code wherever the code does not panic (LoadingScreen.PlaceSpriteCorrected) | medium, not executed | LoadingScreen.PlaceSpriteAsWritten | LoadingScreen.PlaceSprite |
| d2core/d2systems/scene_loading_screen.go:250-256 | updateLoadingSpriteFrame calls GetFrameCount on the same possibly nil sprite | The same store (LoadingScreen.NilSpritePanics) | Skip a nil sprite. The corrected step agrees with the code wherever the code does not panic (LoadingScreen.FrameStepCorrected) | medium, not executed | LoadingScreen.FrameStepAsWritten | LoadingScreen.FrameStep |

## Left out

### Outside world and I/O

- **Archive loading and the filesystem.** d2mpq.Load and os.Lstat are represented by a `Host` value. The `Host` assumes that filepath.Clean does not change which path Lstat sees. Loading the archive a second time in makeMpqSource is assumed to give the same answer as the probe.
- **Source methods.** The two Open methods (file_source_resolver.go:117-128, 148-159) are I/O. fsSource.fullPath and fsSource.Path (:130-136) are library path functions, filepath.Join and filepath.Clean, and mpqSource.Path (:171-173) calls the archive's own Path and then filepath.Clean; none of them is modelled. cleanMpqPath is modelled.
- **Decoders and the renderer.** Sprite decoding (createDc6Sprite, createDccSprite), the animation step and the renderer are foreign code. They become parameters of the factory, and renderer presence is a boolean. A sprite object records only its frames, its current frame and whether it is bound.
- **Log messages.** Logging and the log prefixes are not modelled.

### Libraries and packages not part of this model

- **akara.** The library is not part of this model. Component maps, subscriptions as "the entities whose kinds match the filter", entity issuing and system registration are modelled by what the systems rely on.
- Movement.MovementSystem.Init: that registration activates the system is taken from what the movement tests require, because akara's registration is not part of this model.
- Movement.Scheduler.With: it activates the registered system, under the same assumption as Movement.MovementSystem.Init.
- **Component injection.** The resolvers' and factory's Init component injection is not modelled.
- **movement.go.** It is not part of this model. The movement system's contract is taken from its tests; where it goes beyond them, the Movement.Tick line below says so.
- **The benchmark.** The benchmark in movement_test.go:118-151 measures speed and asserts nothing.
- **The time scale system's package.** The time scale system uses the older ecs package. It is modelled against the world's time delta alone, and not registered in the movement scheduler.
- **The base scene.** BaseScene, with its viewports, pause flag, boot and Update, is not part of this model. The loading scene reads its viewports and pause flag as fields, and its boot is modelled as a flag.
- **Constants from other files.** The loading priority and the loading-screen resource paths are defined in files that are not part of this model, so they are constructor parameters.
- **Scene construction.** The loading scene's constructor sets the background colour and the scene key; neither is modelled.

### Numbers and text

- **Floating point.** Positions, velocities and origins are integers rather than float64. The alpha and the progress are reals, so float64 rounding is not modelled. A NaN or infinite progress is one value.
- LoadingScreen.FrameIndex: converting a non-finite progress to an index is taken to give the smallest int64, which names no frame. Go leaves that conversion implementation-defined.
- SpriteSystem.CurrentFrame: the sprite library is not part of this model. A current frame index that names no frame is assumed to read as a 0x0 frame at offset (0, 0).
- TimeScale.Truncate: it does not model converting a scale outside the int64 range, because Go leaves that implementation-defined.
- **Time scale sizes.** Scales and deltas are exact inside the int64 range.
- FileTypeResolution.Lower: it lower-cases ASCII letters only, not the full Unicode case mapping of strings.ToLower.
- **Components.** A component is overwritten through AddComponent rather than mutated through the pointer the Go factories return. The two are equivalent for the single-threaded systems modelled, but aliasing between component pointers is not captured.
- SpriteSystem.SurfaceChangesWithFrame: GetCurrentFrameSurface belongs to the sprite library, which is not part of this model. A surface is modelled as the frame index it shows (SpriteSystem.CurrentSurface), so one distinct surface per frame index is assumed, and the sprite's direction is ignored.
- Movement.Tick: the step ignores the time delta. Its independence from the delta is an assumption: the only update the tests drive runs time.Second, so a movement system that scales the velocity by the delta in seconds would pass them too.
- Movement.MovementSystem.Update: it applies Movement.Tick, so it assumes the same independence from the time delta.
- Movement.Scheduler.Update: it records any time delta and applies Movement.Tick once per active system, under the same assumption.
- SpriteSystem.SpriteFactory.Update: it takes the load queue's iteration order as a parameter: every queued ID exactly once. Go leaves that order unspecified.
- SpriteSystem.SpriteFactory.QueueSprite: it is Go's `Sprite` method, renamed because `Sprite` is a component kind. It adds the image path before issuing the palette ID, while Go issues both file IDs first. The resulting store and queue are the same.
- FileSourceResolution.CleanMpqPath: it requires a non-empty path, because the Go code indexes the first character and panics on an empty one.
- LoadingScreen.SetCurrentFrame: the sprite implementation is not part of this model. It is assumed to fail, changing nothing, exactly when the index names no frame.
- **Zero file type.** The zero file type is assumed to be FileTypeUnknown, the first value of the enumeration. The enumeration's definition is not part of this model.
