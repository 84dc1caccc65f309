/**
 The five sprite store tests of test/annotations/sprite_store.cpp, written as
 clients of the SpriteStore class. Each returns what its test compares, and
 its postcondition is the comparison; the log a test inspects is returned as
 a ghost result.
 */
module SpriteStoreTests {
  import opened Annotation

  /** TEST(Annotations, SpriteStore): adding, draining, removing, lookups and overwriting. */
  method Basics()
    returns (sprite1: SpriteImage, sprite2: SpriteImage, sprite3: SpriteImage,
             drains: seq<Delta>, hit: Option<SpriteImage>, misses: seq<Option<SpriteImage>>,
             ghost logBeforeMisses: seq<LogEvent>, ghost log: seq<LogEvent>)
    ensures drains == [
      map["one" := Some(sprite1)], map[],
      map["two" := Some(sprite2), "three" := Some(sprite3)], map[],
      map["one" := None, "two" := None], map[],
      map["three" := Some(sprite1)], map[]]
    ensures hit == Some(sprite3)
    ensures misses == [None, None]
    ensures logBeforeMisses == []
    ensures log == [MissingSpriteEvent("two"), MissingSpriteEvent("four")]
  {
    sprite1 := new SpriteImage(8, 8, 2.0);
    sprite2 := new SpriteImage(8, 8, 2.0);
    sprite3 := new SpriteImage(8, 8, 2.0);
    var store := new SpriteStore();
    var d1, d2 := AddingSingle(store, sprite1);
    var d3, d4 := AddingMultiple(store, sprite1, sprite2, sprite3);
    var d5, d6 := Removing(store, sprite3);
    hit, misses, logBeforeMisses := Accessing(store, sprite3);
    log := store.log;
    var d7, d8 := Overwriting(store, sprite1);
    drains := [d1, d2, d3, d4, d5, d6, d7, d8];
  }

  method AddingSingle(store: SpriteStore, sprite1: SpriteImage) returns (first: Delta, second: Delta)
    requires store.Valid() && store.State() == Store(map[], map[]) && store.log == []
    modifies store
    ensures store.Valid() && store.State() == Store(map["one" := sprite1], map[]) && store.log == []
    ensures first == map["one" := Some(sprite1)] && second == map[]
  {
    store.SetSprite("one", sprite1);
    first := store.GetDirty();
    second := store.GetDirty();
  }

  method AddingMultiple(store: SpriteStore, sprite1: SpriteImage, sprite2: SpriteImage, sprite3: SpriteImage)
    returns (first: Delta, second: Delta)
    requires store.Valid() && store.State() == Store(map["one" := sprite1], map[]) && store.log == []
    modifies store
    ensures store.Valid() && store.log == []
    ensures store.State() == Store(map["one" := sprite1, "two" := sprite2, "three" := sprite3], map[])
    ensures first == map["two" := Some(sprite2), "three" := Some(sprite3)] && second == map[]
  {
    store.SetSprite("two", sprite2);
    store.SetSprite("three", sprite3);
    first := store.GetDirty();
    second := store.GetDirty();
  }

  method Removing(store: SpriteStore, sprite3: SpriteImage) returns (first: Delta, second: Delta)
    requires store.Valid() && store.log == [] && store.dirty == map[]
    requires store.sprites.Keys == {"one", "two", "three"} && store.sprites["three"] == sprite3
    modifies store
    ensures store.Valid() && store.State() == Store(map["three" := sprite3], map[]) && store.log == []
    ensures first == map["one" := None, "two" := None] && second == map[]
  {
    store.RemoveSprite("one");
    store.RemoveSprite("two");
    first := store.GetDirty();
    second := store.GetDirty();
    assert store.sprites.Keys == {"three"};
  }

  method Accessing(store: SpriteStore, sprite3: SpriteImage)
    returns (hit: Option<SpriteImage>, misses: seq<Option<SpriteImage>>, ghost logAfterHit: seq<LogEvent>)
    requires store.Valid() && store.State() == Store(map["three" := sprite3], map[]) && store.log == []
    modifies store
    ensures store.Valid() && store.State() == Store(map["three" := sprite3], map[])
    ensures hit == Some(sprite3) && misses == [None, None]
    ensures logAfterHit == []
    ensures store.log == [MissingSpriteEvent("two"), MissingSpriteEvent("four")]
  {
    hit := store.GetSprite("three");
    logAfterHit := store.log;
    var miss1 := store.GetSprite("two");
    var miss2 := store.GetSprite("four");
    misses := [miss1, miss2];
  }

  method Overwriting(store: SpriteStore, sprite1: SpriteImage) returns (first: Delta, second: Delta)
    requires store.Valid() && store.dirty == map[] && "three" in store.sprites
    requires SameDimensions(store.sprites["three"], sprite1)
    modifies store
    ensures first == map["three" := Some(sprite1)] && second == map[]
  {
    store.SetSprite("three", sprite1);
    first := store.GetDirty();
    second := store.GetDirty();
  }

  /** TEST(Annotations, SpriteStoreOtherPixelRatio): a pixel ratio of 1 is stored like any other. */
  method OtherPixelRatio() returns (sprite1: SpriteImage, drained: Delta)
    ensures sprite1.pixelRatio == 1.0
    ensures drained == map["one" := Some(sprite1)]
  {
    sprite1 := new SpriteImage(8, 8, 1.0);
    var store := new SpriteStore();
    store.SetSprite("one", sprite1);
    drained := store.GetDirty();
  }

  /** TEST(Annotations, SpriteStoreMultiple): setSprites puts every entry in the delta. */
  method Multiple() returns (sprite1: SpriteImage, sprite2: SpriteImage, first: Delta, second: Delta)
    ensures first == map["one" := Some(sprite1), "two" := Some(sprite2)]
    ensures second == map[]
  {
    sprite1 := new SpriteImage(8, 8, 2.0);
    sprite2 := new SpriteImage(8, 8, 2.0);
    var store := new SpriteStore();
    var batch := map["one" := sprite1, "two" := sprite2];
    SetBatchOnEmpty(store, batch);
    assert Marks(batch) == map["one" := Some(sprite1), "two" := Some(sprite2)];
    first := store.GetDirty();
    second := store.GetDirty();
  }

  method SetBatchOnEmpty(store: SpriteStore, batch: Sprites)
    requires store.Valid() && store.State() == Store(map[], map[])
    modifies store
    ensures store.Valid() && store.State() == Store(batch, Marks(batch))
  {
    WithSpritesOnEmpty(batch);
    ghost var order := store.SetSprites(batch);
  }

  /** TEST(Annotations, SpriteStoreReplace): a same-sized replacement is seen and coalesced. */
  method Replace()
    returns (sprite1: SpriteImage, sprite2: SpriteImage,
             afterFirst: Option<SpriteImage>, afterSecond: Option<SpriteImage>, drained: Delta)
    ensures afterFirst == Some(sprite1) && afterSecond == Some(sprite2)
    ensures drained == map["sprite" := Some(sprite2)]
  {
    sprite1 := new SpriteImage(8, 8, 2.0);
    sprite2 := new SpriteImage(8, 8, 2.0);
    var store := new SpriteStore();
    store.SetSprite("sprite", sprite1);
    afterFirst := store.GetSprite("sprite");
    store.SetSprite("sprite", sprite2);
    afterSecond := store.GetSprite("sprite");
    drained := store.GetDirty();
  }

  /**
   TEST(Annotations, SpriteStoreReplaceWithDifferentDimensions): the 9x9
   replacement of an 8x8 image is refused with exactly one warning.
   */
  method ReplaceWithDifferentDimensions()
    returns (sprite1: SpriteImage, sprite2: SpriteImage,
             current: Option<SpriteImage>, drained: Delta, ghost log: seq<LogEvent>)
    ensures current == Some(sprite1)
    ensures drained == map["sprite" := Some(sprite1)]
    ensures log == [DimensionChangeEvent("sprite")]
  {
    sprite1 := new SpriteImage(8, 8, 2.0);
    sprite2 := new SpriteImage(9, 9, 2.0);
    var store := new SpriteStore();
    store.SetSprite("sprite", sprite1);
    store.SetSprite("sprite", sprite2);
    log := store.log;
    current := store.GetSprite("sprite");
    drained := store.GetDirty();
  }
}
