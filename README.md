# Sprite store and EGL config choice

This project models two small pieces of mapbox-gl-native.

**The annotation sprite store** (module `Annotation`, file `annotation.dfy`) is a cache of named sprite images.
- It also keeps a "dirty" delta of the changes made since a renderer last drained it.
- `setSprite` and `setSprites` insert or replace images. A replacement whose width or height differs from the stored image is refused with one Warning diagnostic.
- `removeSprite` deletes an image and records a removal marker (`nullptr`, here `None`).
- `getSprite` returns an image, or `nullptr` plus one Info diagnostic on a miss.
- `getDirty` hands out the delta and clears it.

The store is a class, `Annotation.SpriteStore`. Its two maps are fields that its methods update in place, and a ghost `log` records the diagnostics. Each mutating method (`SetSprite`, `SetSprites`, `RemoveSprite`) is proved against a function on store values (`WithSprite`, `WithSprites`, `WithoutSprite`); `GetSprite` and `GetDirty` are specified directly on the fields. The properties are proved about those functions:
- the delta always holds the current image of every name in it (`Consistent`);
- every change between two drains is recorded, and untouched names stay out;
- a renderer that applies each drained delta stays equal to the store.

The five unit tests of test/annotations/sprite_store.cpp are client methods in module `SpriteStoreTests` (`sprite_store_tests.dfy`). Each test's expectations are that method's postcondition.

**The EGL config choice of the Android view** (module `NativeMapView`, file `native_map_view.dfy`) has three parts:
- `initializeContext`'s version gate;
- `chooseConfig`, a loop over the configs EGL offers that keeps the last acceptable one, and returns 0 as soon as an attribute query fails;
- the caller's check of the index `chooseConfig` returns.

A config is modelled as the ten answers `eglGetConfigAttrib` gives for it. Each answer is a value or a failure.

## Model

| member | source | states |
|---|---|---|
| Annotation.SetEvents | test/annotations/sprite_store.cpp:130-138 | a set logs nothing iff it is accepted; a refused set logs exactly one Warning "Can't change sprite dimensions for '<name>'" |
| Annotation.WithSpriteEffect | test/annotations/sprite_store.cpp:19-33 | an accepted setSprite stores the image and records it in the delta; a refused one changes nothing; no other name changes; the delta stays consistent |
| Annotation.WithoutSpriteEffect | test/annotations/sprite_store.cpp:36-42 | removeSprite of a present name deletes it and records a removal marker; an absent name changes nothing; no other name changes; the delta stays consistent |
| Annotation.WithSpritesEffect | test/annotations/sprite_store.cpp:94-101 | setSprites stores and records every accepted entry and leaves every other name, refused entries included, as it was |
| Annotation.SpriteStore.constructor | test/annotations/sprite_store.cpp:16 | a new store has no images, an empty delta and has logged nothing |
| Annotation.SpriteStore.SetSprite | test/annotations/sprite_store.cpp:19-33 | the new store state is WithSprite of the old one, the delta stays consistent, and the log grows by exactly the set's diagnostics |
| Annotation.SpriteStore.SetSprites | test/annotations/sprite_store.cpp:94-101 | visiting the batch's names once each, in some order, gives WithSprites of the old state; the log grows by that walk's per-entry warnings |
| Annotation.SpriteStore.RemoveSprite | test/annotations/sprite_store.cpp:36-42 | the new state is WithoutSprite of the old one; nothing is logged |
| Annotation.SpriteStore.GetSprite | test/annotations/sprite_store.cpp:45-63 | returns the stored image or None; a miss appends exactly one Info "Can't find sprite named '<name>'", a hit appends nothing |
| Annotation.SpriteStore.GetDirty | test/annotations/sprite_store.cpp:20-24 | returns the whole pending delta, leaves it empty, changes no image, and every returned entry holds that name's current image or None |
| Annotation.SetFreshNameDelta | test/annotations/sprite_store.cpp:19-23 | after a drain, setting a new name gives a delta of exactly that one entry and no diagnostic |
| Annotation.ReplaceCoalesces | test/annotations/sprite_store.cpp:113-118 | two same-sized sets of one name before a drain leave one delta entry holding the later image, which getSprite returns |
| Annotation.WithSpritesOnEmpty | test/annotations/sprite_store.cpp:94-101 | setSprites on an empty store stores the whole batch and puts every entry in the delta |
| Annotation.DimensionChangeRejected | test/annotations/sprite_store.cpp:121-143 | a replacement with other dimensions leaves the store and its delta unchanged and logs one warning |
| Annotation.WithSpritesIsSetEach | test/annotations/sprite_store.cpp:94-96 | setSprite applied to distinct batch entries one after another, in any order, equals setSprites of those entries |
| Annotation.SetEachCoversBatch | test/annotations/sprite_store.cpp:94-96 | a walk that visits every batch name once gives setSprites of the batch, whatever the order |
| Annotation.BatchEventsEmptyIffAllAccepted | test/annotations/sprite_store.cpp:94-101 | setSprites logs nothing iff every entry of the batch is accepted |
| Annotation.ApplyEffect | test/annotations/sprite_store.cpp:19-71 | every mutation keeps the delta consistent, only adds delta names, records every name whose image changed, and leaves the names it does not touch alone |
| Annotation.RunRecordsEveryChange | test/annotations/sprite_store.cpp:19-71 | between two drains, any sequence of sets, batch sets and removes keeps these: each delta entry holds its name's final state; every name whose image changed is in the delta; untouched names stay out |
| Annotation.ApplyDelta | test/annotations/sprite_store.cpp:38-41 | a reference reading of the removal markers at these lines, not code taken from them (the renderer that consumes the delta is not part of this model): applying a drained delta to an atlas gives each named entry its delta value (None evicts) and leaves other names as they were |
| Annotation.RendererAtlasTracksStore | test/annotations/sprite_store.cpp:19-71 | a renderer whose atlas plus the pending delta equals the store stays equal to the store after any mutations, once it applies the next drained delta |
| SpriteStoreTests.Basics | test/annotations/sprite_store.cpp:8-72 | the eight drains of the basic test equal the expected maps, "three" is found, "two" and "four" miss, and the log holds exactly the two Info events, none before the misses |
| SpriteStoreTests.AddingSingle | test/annotations/sprite_store.cpp:18-24 | one set then two drains give {"one": sprite1} then {} |
| SpriteStoreTests.AddingMultiple | test/annotations/sprite_store.cpp:26-33 | two sets then two drains give {"two", "three"} then {} |
| SpriteStoreTests.Removing | test/annotations/sprite_store.cpp:35-42 | two removes then two drains give {"one": None, "two": None} then {} |
| SpriteStoreTests.Accessing | test/annotations/sprite_store.cpp:44-63 | the hit returns sprite3 with an empty log; the two misses return None and log exactly the two Info events |
| SpriteStoreTests.Overwriting | test/annotations/sprite_store.cpp:65-71 | a same-sized overwrite then two drains give {"three": sprite1} then {} |
| SpriteStoreTests.OtherPixelRatio | test/annotations/sprite_store.cpp:74-85 | an image with pixel ratio 1 is stored and drained like any other |
| SpriteStoreTests.Multiple | test/annotations/sprite_store.cpp:87-102 | setSprites of two entries then two drains give both entries then {} |
| SpriteStoreTests.Replace | test/annotations/sprite_store.cpp:104-119 | getSprite sees each replacement and the drain holds only the later image |
| SpriteStoreTests.ReplaceWithDifferentDimensions | test/annotations/sprite_store.cpp:121-143 | the 9x9 replacement is refused: one Warning event, getSprite still returns the 8x8 image, and the drain holds the original |
| NativeMapView.VersionGateExamples | android/jni/NativeMapView.cpp:79-83 | version 1.2 is refused; 1.3, 1.4 and 2.0 pass |
| NativeMapView.VersionGateFromOne | android/jni/NativeMapView.cpp:79-83 | from version 1.0 on, the gate refuses exactly the versions below 1.3 |
| NativeMapView.VersionGateAcceptsZeroThree | android/jni/NativeMapView.cpp:79-83 | the gate as written lets 0.3 pass although it is below 1.3, while it refuses the later 1.2 |
| NativeMapView.IntendedVersionGate | android/jni/NativeMapView.cpp:79-83 | the corrected gate "below 1.3" is monotone in the version, and it differs from the written gate exactly when major < 1 and minor >= 3 |
| NativeMapView.LastOk | android/jni/NativeMapView.cpp:280-293 | the result is -1 or an index below n; that config passes the acceptance rule; no later config below n passes it |
| NativeMapView.ChooseConfig | android/jni/NativeMapView.cpp:200-297 | returns -1 or a valid index; 0 whenever any query fails; otherwise it returns the last config that is 32-bit RGB 888 with alpha 0 or 8 and no samples, and -1 iff no config is such |
| NativeMapView.ChoiceIgnoresUnchecked | android/jni/NativeMapView.cpp:280-289 | alpha mask, depth, stencil and sample-buffer values never change the choice |
| NativeMapView.FailedQueryPassesCallerCheck | android/jni/NativeMapView.cpp:125-130 | with a refused RGB565 config 0 and a config 1 whose first query fails, the result is 0 and the `< 0` check at line 126 lets it through |
| NativeMapView.ChosenIntended | android/jni/NativeMapView.cpp:200-297 | the corrected choice returns -1 on a failed query; any index the caller accepts names a fully answered, acceptable config; it agrees with chooseConfig when every query succeeds |

## Left out

- The SpriteStore implementation (mbgl/annotation/sprite_store.hpp and its .cpp) is not part of this model. The store's behaviour is taken from its unit tests. Two behaviours the tests do not show follow the store's design: removing an absent name does nothing, and a set followed by a remove before a drain leaves a removal marker.
- Annotation.SpriteStore.SetSprites: the order of the warnings for refused entries follows `std::map` key order in the source. The model returns the visiting order as a ghost result and proves the state does not depend on it. It does not fix the order to the lexicographic one.
- Annotation.SameDimensions compares width and height only. The tests do not say whether the pixel ratio takes part in the dimension check.
- A `nullptr` image passed to setSprite is not modelled: images are never null here.
- Pixel data: images are opaque objects with width, height and pixel ratio, compared by identity like the shared pointers in the tests. The 16-bit width/height and the float pixel ratio become `nat` and `real`. No arithmetic is done on them.
- The diagnostic log is a ghost sequence of events in the order they are written. The tests only count occurrences, so the model states more than they check.
- NativeMapView.ChooseConfig: the `terminateContext()` call on each failed query and the INFO/ERROR logging are not modelled. Only the returned index is modelled.
- The rest of android/jni/NativeMapView.cpp (display, surface and context creation, start/stop, swap, logging helpers, stream redirection) is EGL/GL foreign calls. android/src/com/mapbox/mapboxgl/MapView.java is Android UI plumbing. Both are left out.
- The EGL attribute values are `EGLint` (32-bit). They are modelled as `int`: the rule only compares them, so no width matters.
- The resource fetch, retry and revalidation engine is not part of this model. None of its source is among the modelled files, and it is asynchronous.

## Findings

| source | as written | input that shows it | evidently intended | confidence | as-written member | corrected member |
|---|---|---|---|---|---|---|
| android/jni/NativeMapView.cpp:209-267 | every failed `eglGetConfigAttrib` query does `return false;`, i.e. index 0, and the caller at line 126 only refuses negative indices | config 0 answers RGB565 (16 bits, 5/6/5, not acceptable) and config 1's EGL_BUFFER_SIZE query fails: the result is 0 and the check at line 126 passes it. The context is still not built: the failing branch already ran terminateContext(), which resets the display (line 326), so the next query at line 134 fails and initializeContext returns false at line 137. What is visible is the misleading "eglGetConfigAttrib() returned error" in place of "No config chosen", and a second terminateContext() | report the failure as "no config" (-1) so the caller stops | medium, not executed | NativeMapView.FailedQueryPassesCallerCheck | NativeMapView.ChosenIntended |
| android/jni/NativeMapView.cpp:79 | `(major <= 1) && (minor < 3)` refuses a version only when both hold | version 0.3 passes the gate although it is below 1.3, while the later 1.2 is refused | refuse every version below 1.3 (major below 1, or major 1 and minor below 3) | low (EGL implementations report major >= 1), not executed | NativeMapView.VersionGateAcceptsZeroThree | NativeMapView.IntendedVersionGate |
