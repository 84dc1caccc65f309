/**
 The annotation sprite store: a cache of named sprite images together with a
 "dirty" delta of the changes made since a renderer last drained it.

 The store's behaviour is pinned down by the unit tests in
 test/annotations/sprite_store.cpp; the tests compare images by pointer
 identity (shared pointers), compare drained deltas with std::map equality,
 and count the diagnostics written to the log.
 */
module Annotation {

  datatype Option<+T> = None | Some(value: T)

  // ---------------------------------------------------------------------------
  // Diagnostics
  // ---------------------------------------------------------------------------

  datatype EventSeverity = Info | Warning

  /** The subsystem a diagnostic is filed under; the store only uses Sprite. */
  datatype EventKind = Sprite

  /** One log record: severity, subsystem, numeric code and message. */
  datatype LogEvent = LogEvent(severity: EventSeverity, event: EventKind, code: int, message: string)

  /** The store never attaches a numeric code to its diagnostics. */
  const NoCode: int := -1

  /** Written by a lookup of a name the store does not hold. */
  function MissingSpriteEvent(name: string): LogEvent
  {
    LogEvent(Info, Sprite, NoCode, "Can't find sprite named '" + name + "'")
  }

  /** Written when a replacement image has other dimensions than the stored one. */
  function DimensionChangeEvent(name: string): LogEvent
  {
    LogEvent(Warning, Sprite, NoCode, "Can't change sprite dimensions for '" + name + "'")
  }

  // ---------------------------------------------------------------------------
  // Images and the abstract store
  // ---------------------------------------------------------------------------

  /**
   An immutable sprite image. It is a reference type so that equality is
   object identity, as for the shared pointers the store hands out; the pixel
   buffer is not modelled.
   */
  class SpriteImage {
    const width: nat
    const height: nat
    const pixelRatio: real

    constructor (width: nat, height: nat, pixelRatio: real)
      ensures this.width == width && this.height == height && this.pixelRatio == pixelRatio
    {
      this.width := width;
      this.height := height;
      this.pixelRatio := pixelRatio;
    }
  }

  type Sprites = map<string, SpriteImage>

  /** A drained change set: an image for a name that was set, None for a removal. */
  type Delta = map<string, Option<SpriteImage>>

  /** The value of a store: its current images and its undrained delta. */
  datatype Store = Store(sprites: Sprites, dirty: Delta)

  function Lookup(sprites: Sprites, name: string): Option<SpriteImage>
  {
    if name in sprites then Some(sprites[name]) else None
  }

  predicate SameDimensions(a: SpriteImage, b: SpriteImage)
  {
    a.width == b.width && a.height == b.height
  }

  /** A set is accepted unless it would change the dimensions of a stored image. */
  predicate Accepts(sprites: Sprites, name: string, image: SpriteImage)
  {
    name !in sprites || SameDimensions(sprites[name], image)
  }

  /** Every entry of the delta holds the store's current state for that name. */
  predicate Consistent(st: Store)
  {
    forall n :: n in st.dirty ==> st.dirty[n] == Lookup(st.sprites, n)
  }

  /** The two stores agree on the image and on the delta entry for `n`. */
  predicate SameAt(a: Store, b: Store, n: string)
  {
    && Lookup(a.sprites, n) == Lookup(b.sprites, n)
    && (n in a.dirty <==> n in b.dirty)
    && (n in a.dirty ==> a.dirty[n] == b.dirty[n])
  }

  // ---------------------------------------------------------------------------
  // Operations on store values
  // ---------------------------------------------------------------------------

  /** setSprite: insert or replace, unless the replacement changes the dimensions. */
  function WithSprite(st: Store, name: string, image: SpriteImage): Store
  {
    if Accepts(st.sprites, name, image) then
      Store(st.sprites[name := image], st.dirty[name := Some(image)])
    else
      st
  }

  /** The diagnostics one setSprite writes. */
  function SetEvents(sprites: Sprites, name: string, image: SpriteImage): (log: seq<LogEvent>)
    ensures log == [] <==> Accepts(sprites, name, image)
    ensures log != [] ==> log == [DimensionChangeEvent(name)] && log[0].severity == Warning
  {
    if Accepts(sprites, name, image) then [] else [DimensionChangeEvent(name)]
  }

  /** removeSprite: delete a present name and mark it removed; an absent name is left alone. */
  function WithoutSprite(st: Store, name: string): Store
  {
    if name in st.sprites then Store(st.sprites - {name}, st.dirty[name := None]) else st
  }

  /** The entries of a batch that the per-entry rule accepts against `sprites`. */
  function Accepted(sprites: Sprites, batch: Sprites): Sprites
  {
    map n | n in batch && Accepts(sprites, n, batch[n]) :: batch[n]
  }

  /**
   setSprites: the per-entry rule of setSprite applied to every entry of a
   batch at once. The entries have distinct names, so whether an entry is
   accepted depends only on the state before the batch.
   */
  function WithSprites(st: Store, batch: Sprites): Store
  {
    var acc := Accepted(st.sprites, batch);
    Store(st.sprites + acc, st.dirty + Marks(acc))
  }

  /** The delta entries that setting every image of `images` records. */
  function Marks(images: Sprites): Delta
  {
    map n | n in images :: Some(images[n])
  }

  /** The diagnostics of setSprites when the batch is visited in the order `order`. */
  function BatchEvents(sprites: Sprites, batch: Sprites, order: seq<string>): seq<LogEvent>
    requires forall i :: 0 <= i < |order| ==> order[i] in batch
  {
    if order == [] then []
    else
      var last := order[|order| - 1];
      BatchEvents(sprites, batch, order[..|order| - 1]) + SetEvents(sprites, last, batch[last])
  }

  /** setSprite applied entry by entry, in the order `order`. */
  function SetEach(st: Store, batch: Sprites, order: seq<string>): Store
    requires forall i :: 0 <= i < |order| ==> order[i] in batch
  {
    if order == [] then st
    else
      var last := order[|order| - 1];
      WithSprite(SetEach(st, batch, order[..|order| - 1]), last, batch[last])
  }

  predicate Distinct(order: seq<string>)
  {
    forall i, j :: 0 <= i < j < |order| ==> order[i] != order[j]
  }

  /** The part of `batch` whose names occur in `order`. */
  function Restrict(batch: Sprites, order: seq<string>): Sprites
  {
    map n | n in batch && n in order :: batch[n]
  }

  // ---------------------------------------------------------------------------
  // What each operation changes
  // ---------------------------------------------------------------------------

  /**
   An accepted setSprite stores the image and records it in the delta; a
   rejected one changes nothing; no other name is affected; the delta stays
   consistent with the store.
   */
  lemma WithSpriteEffect(st: Store, name: string, image: SpriteImage)
    ensures var r := WithSprite(st, name, image);
      && (Consistent(st) ==> Consistent(r))
      && (Accepts(st.sprites, name, image) ==>
            Lookup(r.sprites, name) == Some(image) && name in r.dirty && r.dirty[name] == Some(image))
      && (!Accepts(st.sprites, name, image) ==> r == st)
      && (forall n :: n != name ==> SameAt(r, st, n))
  {
  }

  /**
   removeSprite of a present name deletes it and records a removal marker;
   an absent name changes nothing; no other name is affected.
   */
  lemma WithoutSpriteEffect(st: Store, name: string)
    ensures var r := WithoutSprite(st, name);
      && (Consistent(st) ==> Consistent(r))
      && (name in st.sprites ==> Lookup(r.sprites, name) == None && name in r.dirty && r.dirty[name] == None)
      && (name !in st.sprites ==> r == st)
      && (forall n :: n != name ==> SameAt(r, st, n))
  {
  }

  /**
   setSprites stores and records every accepted entry and leaves every other
   name, rejected entries included, as it was.
   */
  lemma WithSpritesEffect(st: Store, batch: Sprites)
    ensures var r := WithSprites(st, batch);
      && (Consistent(st) ==> Consistent(r))
      && (forall n :: n in batch && Accepts(st.sprites, n, batch[n]) ==>
            Lookup(r.sprites, n) == Some(batch[n]) && n in r.dirty && r.dirty[n] == Some(batch[n]))
      && (forall n :: !(n in batch && Accepts(st.sprites, n, batch[n])) ==> SameAt(r, st, n))
  {
    var r := WithSprites(st, batch);
    forall n ensures
      && (n in batch && Accepts(st.sprites, n, batch[n]) ==>
            Lookup(r.sprites, n) == Some(batch[n]) && n in r.dirty && r.dirty[n] == Some(batch[n]))
      && (!(n in batch && Accepts(st.sprites, n, batch[n])) ==> SameAt(r, st, n))
    {
      WithSpritesAt(st, batch, n);
    }
    if Consistent(st) {
      forall n | n in r.dirty ensures r.dirty[n] == Lookup(r.sprites, n) {
        WithSpritesAt(st, batch, n);
      }
    }
  }

  /** The effect of setSprites on one name. */
  lemma WithSpritesAt(st: Store, batch: Sprites, n: string)
    ensures var r := WithSprites(st, batch);
      && (n in batch && Accepts(st.sprites, n, batch[n]) ==>
            Lookup(r.sprites, n) == Some(batch[n]) && n in r.dirty && r.dirty[n] == Some(batch[n]))
      && (!(n in batch && Accepts(st.sprites, n, batch[n])) ==> SameAt(r, st, n))
  {
    var acc := Accepted(st.sprites, batch);
    if n in batch && Accepts(st.sprites, n, batch[n]) {
      assert n in acc && acc[n] == batch[n];
      assert n in Marks(acc) && Marks(acc)[n] == Some(batch[n]);
    } else {
      assert n !in acc;
      assert n !in Marks(acc);
    }
  }

  // ---------------------------------------------------------------------------
  // The store object
  // ---------------------------------------------------------------------------

  /**
   The stateful store. Both maps are updated in place; `log` records the
   diagnostics the store writes, in order.
   */
  class SpriteStore {
    var sprites: Sprites
    var dirty: Delta
    ghost var log: seq<LogEvent>

    function State(): Store
      reads this
    {
      Store(sprites, dirty)
    }

    ghost predicate Valid()
      reads this
    {
      Consistent(State())
    }

    constructor ()
      ensures Valid()
      ensures sprites == map[] && dirty == map[] && log == []
    {
      sprites := map[];
      dirty := map[];
      log := [];
    }

    method SetSprite(name: string, image: SpriteImage)
      requires Valid()
      modifies this
      ensures Valid()
      ensures State() == WithSprite(old(State()), name, image)
      ensures log == old(log) + SetEvents(old(sprites), name, image)
    {
      if name in sprites && !SameDimensions(sprites[name], image) {
        log := log + [DimensionChangeEvent(name)];
        return;
      }
      sprites := sprites[name := image];
      dirty := dirty[name := Some(image)];
    }

    /**
     Applies SetSprite to every entry of the batch. `order` is the order in
     which the entries were visited; it decides only the order of the warnings.
     */
    method SetSprites(batch: Sprites) returns (ghost order: seq<string>)
      requires Valid()
      modifies this
      ensures Valid()
      ensures Distinct(order) && forall n :: n in batch <==> n in order
      ensures State() == WithSprites(old(State()), batch)
      ensures log == old(log) + BatchEvents(old(sprites), batch, order)
    {
      ghost var st0 := State();
      ghost var log0 := log;
      var remaining := batch.Keys;
      order := [];
      while remaining != {}
        invariant Valid()
        invariant Visiting(batch, order, remaining)
        invariant State() == SetEach(st0, batch, order)
        invariant log == log0 + BatchEvents(st0.sprites, batch, order)
        decreases remaining
      {
        var name :| name in remaining;
        SetSpritesStep(st0, batch, order, remaining, name, State());
        ghost var events := SetEvents(sprites, name, batch[name]);
        AppendAssoc(log0, BatchEvents(st0.sprites, batch, order), events);
        SetSprite(name, batch[name]);
        order := order + [name];
        remaining := remaining - {name};
      }
      VisitDone(batch, order);
      SetEachCoversBatch(st0, batch, order);
    }

    method RemoveSprite(name: string)
      requires Valid()
      modifies this
      ensures Valid()
      ensures State() == WithoutSprite(old(State()), name)
      ensures log == old(log)
    {
      if name in sprites {
        sprites := sprites - {name};
        dirty := dirty[name := None];
      }
    }

    /** The image stored under `name`; a miss writes one informational diagnostic. */
    method GetSprite(name: string) returns (image: Option<SpriteImage>)
      modifies this`log
      ensures image == Lookup(sprites, name)
      ensures log == old(log) + (if image == None then [MissingSpriteEvent(name)] else [])
    {
      if name in sprites {
        image := Some(sprites[name]);
      } else {
        log := log + [MissingSpriteEvent(name)];
        image := None;
      }
    }

    /** Hands out the accumulated delta and clears it. */
    method GetDirty() returns (delta: Delta)
      requires Valid()
      modifies this`dirty
      ensures Valid()
      ensures delta == old(dirty) && dirty == map[]
      ensures forall n :: n in delta ==> delta[n] == Lookup(sprites, n)
    {
      delta := dirty;
      dirty := map[];
    }
  }

  // ---------------------------------------------------------------------------
  // Properties
  // ---------------------------------------------------------------------------

  /** Adding a new name to a drained store gives a delta of exactly that entry, and no log. */
  lemma SetFreshNameDelta(st: Store, name: string, image: SpriteImage)
    requires st.dirty == map[] && name !in st.sprites
    ensures WithSprite(st, name, image).dirty == map[name := Some(image)]
    ensures SetEvents(st.sprites, name, image) == []
  {
  }

  /**
   Two sets of the same name before a drain coalesce into one delta entry that
   holds the later image, and getSprite sees the later image.
   */
  lemma ReplaceCoalesces(st: Store, name: string, first: SpriteImage, second: SpriteImage)
    requires Accepts(st.sprites, name, first) && SameDimensions(first, second)
    ensures var r := WithSprite(WithSprite(st, name, first), name, second);
      && Lookup(r.sprites, name) == Some(second)
      && r.dirty == st.dirty[name := Some(second)]
    ensures SetEvents(WithSprite(st, name, first).sprites, name, second) == []
  {
  }

  /** setSprites on an empty store stores every entry and records every entry in the delta. */
  lemma WithSpritesOnEmpty(batch: Sprites)
    ensures WithSprites(Store(map[], map[]), batch) == Store(batch, Marks(batch))
  {
    assert Accepted(map[], batch) == batch;
  }

  /** A replacement with other dimensions changes nothing and logs one warning. */
  lemma DimensionChangeRejected(st: Store, name: string, image: SpriteImage)
    requires name in st.sprites && !SameDimensions(st.sprites[name], image)
    ensures WithSprite(st, name, image) == st
    ensures SetEvents(st.sprites, name, image) == [DimensionChangeEvent(name)]
  {
  }

  lemma AcceptedExtend(sprites: Sprites, done: Sprites, name: string, image: SpriteImage)
    requires name !in done
    ensures Accepted(sprites, done[name := image]) ==
              if Accepts(sprites, name, image) then Accepted(sprites, done)[name := image]
              else Accepted(sprites, done)
  {
  }

  lemma MarksExtend(images: Sprites, name: string, image: SpriteImage)
    ensures Marks(images[name := image]) == Marks(images)[name := Some(image)]
  {
  }

  lemma UnionExtend<V>(a: map<string, V>, b: map<string, V>, k: string, v: V)
    ensures a + b[k := v] == (a + b)[k := v]
  {
  }

  /** Adding an entry not yet in `done` to a batch is one more setSprite. */
  lemma WithSpritesStep(st: Store, done: Sprites, name: string, image: SpriteImage)
    requires name !in done
    ensures WithSprites(st, done[name := image]) == WithSprite(WithSprites(st, done), name, image)
  {
    var acc := Accepted(st.sprites, done);
    assert name !in acc;
    assert Lookup(st.sprites + acc, name) == Lookup(st.sprites, name);
    AcceptedExtend(st.sprites, done, name, image);
    if Accepts(st.sprites, name, image) {
      MarksExtend(acc, name, image);
      UnionExtend(st.sprites, acc, name, image);
      UnionExtend(st.dirty, Marks(acc), name, Some(image));
    }
  }

  /** An empty batch changes nothing. */
  lemma WithSpritesEmpty(st: Store)
    ensures WithSprites(st, map[]) == st
  {
    assert Accepted(st.sprites, map[]) == map[];
    assert Marks(map[]) == map[];
  }

  /**
   A walk over the entries of `batch` that has visited `order`, without
   repetition, and has `remaining` still to visit.
   */
  predicate Visiting(batch: Sprites, order: seq<string>, remaining: set<string>)
  {
    && remaining <= batch.Keys
    && Distinct(order)
    && (forall i :: 0 <= i < |order| ==> order[i] in batch && order[i] !in remaining)
    && (forall n :: n in batch && n !in remaining ==> n in order)
  }

  lemma VisitNext(batch: Sprites, order: seq<string>, remaining: set<string>, name: string)
    requires Visiting(batch, order, remaining) && name in remaining
    ensures name in batch && forall i :: 0 <= i < |order| ==> order[i] != name
    ensures Visiting(batch, order + [name], remaining - {name})
  {
    var extended := order + [name];
    forall i, j | 0 <= i < j < |extended|
      ensures extended[i] != extended[j]
    {
      assert extended[i] == order[i];
      if j < |order| {
        assert extended[j] == order[j];
      }
    }
    forall n | n in batch && n !in remaining - {name}
      ensures n in extended
    {
      if n != name {
        var i :| 0 <= i < |order| && order[i] == n;
        assert extended[i] == n;
      } else {
        assert extended[|order|] == n;
      }
    }
  }

  /** One more step of the walk in SetSprites is one more setSprite, with its diagnostics. */
  lemma SetSpritesStep(st0: Store, batch: Sprites, order: seq<string>, remaining: set<string>, name: string, cur: Store)
    requires Visiting(batch, order, remaining) && name in remaining
    requires cur == SetEach(st0, batch, order)
    ensures name in batch && Visiting(batch, order + [name], remaining - {name})
    ensures SetEach(st0, batch, order + [name]) == WithSprite(cur, name, batch[name])
    ensures BatchEvents(st0.sprites, batch, order + [name])
              == BatchEvents(st0.sprites, batch, order) + SetEvents(cur.sprites, name, batch[name])
  {
    VisitNext(batch, order, remaining, name);
    SetEachLeavesUnvisited(st0, batch, order, name);
    SetEventsByLookup(cur.sprites, st0.sprites, name, batch[name]);
    WalkSnoc(st0, batch, order, name);
  }

  /** Unfolding SetEach and BatchEvents at a walk extended by one name. */
  lemma WalkSnoc(st0: Store, batch: Sprites, order: seq<string>, name: string)
    requires name in batch && forall i :: 0 <= i < |order| ==> order[i] in batch
    ensures SetEach(st0, batch, order + [name]) == WithSprite(SetEach(st0, batch, order), name, batch[name])
    ensures BatchEvents(st0.sprites, batch, order + [name])
              == BatchEvents(st0.sprites, batch, order) + SetEvents(st0.sprites, name, batch[name])
  {
    var extended := order + [name];
    assert extended[..|extended| - 1] == order && extended[|extended| - 1] == name;
  }

  lemma AppendAssoc<T>(a: seq<T>, b: seq<T>, c: seq<T>)
    ensures (a + b) + c == a + (b + c)
  {
  }

  /** Whether a set is accepted, and what it logs, depends only on the stored image of that name. */
  lemma SetEventsByLookup(a: Sprites, b: Sprites, name: string, image: SpriteImage)
    requires Lookup(a, name) == Lookup(b, name)
    ensures SetEvents(a, name, image) == SetEvents(b, name, image)
  {
    assert name in a <==> name in b;
    if name in a {
      assert Some(a[name]) == Some(b[name]);
    }
  }

  lemma VisitDone(batch: Sprites, order: seq<string>)
    requires Visiting(batch, order, {})
    ensures Distinct(order) && forall n :: n in batch <==> n in order
  {
  }

  /** A name the batch has not visited yet keeps its original image. */
  lemma SetEachLeavesUnvisited(st: Store, batch: Sprites, order: seq<string>, name: string)
    requires Distinct(order) && forall i :: 0 <= i < |order| ==> order[i] in batch && order[i] != name
    ensures Lookup(SetEach(st, batch, order).sprites, name) == Lookup(st.sprites, name)
  {
    WithSpritesIsSetEach(st, batch, order);
    WithSpritesEffect(st, Restrict(batch, order));
    assert name !in Restrict(batch, order);
  }

  lemma SetEachExtend(st: Store, batch: Sprites, prefix: seq<string>, last: string)
    requires forall i :: 0 <= i < |prefix| ==> prefix[i] in batch
    requires last in batch && last !in prefix
    requires SetEach(st, batch, prefix) == WithSprites(st, Restrict(batch, prefix))
    ensures SetEach(st, batch, prefix + [last]) == WithSprites(st, Restrict(batch, prefix + [last]))
  {
    WalkSnoc(st, batch, prefix, last);
    RestrictSnoc(batch, prefix, last);
    WithSpritesStep(st, Restrict(batch, prefix), last, batch[last]);
  }

  lemma RestrictSnoc(batch: Sprites, prefix: seq<string>, last: string)
    requires last in batch && last !in prefix
    ensures last !in Restrict(batch, prefix)
    ensures Restrict(batch, prefix + [last]) == Restrict(batch, prefix)[last := batch[last]]
  {
    var order := prefix + [last];
    forall n ensures n in order <==> n in prefix || n == last {
      if n in order {
        var i :| 0 <= i < |order| && order[i] == n;
        if i < |prefix| { assert prefix[i] == n; }
      }
      if n in prefix {
        var i :| 0 <= i < |prefix| && prefix[i] == n;
        assert order[i] == n;
      }
      if n == last { assert order[|prefix|] == n; }
    }
  }

  /**
   setSprite applied to distinct entries one after the other, in any order,
   is setSprites of those entries.
   */
  lemma {:induction false} WithSpritesIsSetEach(st: Store, batch: Sprites, order: seq<string>)
    requires Distinct(order) && forall i :: 0 <= i < |order| ==> order[i] in batch
    ensures SetEach(st, batch, order) == WithSprites(st, Restrict(batch, order))
  {
    if order == [] {
      assert Restrict(batch, order) == map[];
      WithSpritesEmpty(st);
    } else {
      var prefix, last := order[..|order| - 1], order[|order| - 1];
      assert Distinct(prefix);
      WithSpritesIsSetEach(st, batch, prefix);
      assert prefix + [last] == order;
      SetEachExtend(st, batch, prefix, last);
    }
  }

  /** Visiting every entry of the batch once, in any order, gives setSprites. */
  lemma SetEachCoversBatch(st: Store, batch: Sprites, order: seq<string>)
    requires Distinct(order) && forall n :: n in batch <==> n in order
    ensures SetEach(st, batch, order) == WithSprites(st, batch)
  {
    WithSpritesIsSetEach(st, batch, order);
    assert Restrict(batch, order) == batch;
  }

  /** setSprites logs nothing exactly when every entry of the batch is accepted. */
  lemma {:induction false} BatchEventsEmptyIffAllAccepted(sprites: Sprites, batch: Sprites, order: seq<string>)
    requires forall i :: 0 <= i < |order| ==> order[i] in batch
    ensures BatchEvents(sprites, batch, order) == [] <==>
              forall i :: 0 <= i < |order| ==> Accepts(sprites, order[i], batch[order[i]])
  {
    if order != [] {
      BatchEventsEmptyIffAllAccepted(sprites, batch, order[..|order| - 1]);
    }
  }

  // ---------------------------------------------------------------------------
  // Sequences of mutations between two drains
  // ---------------------------------------------------------------------------

  datatype Mutation = SetOne(name: string, image: SpriteImage) | SetMany(batch: Sprites) | RemoveOne(name: string)

  predicate Touches(m: Mutation, n: string)
  {
    match m
    case SetOne(name, _) => name == n
    case SetMany(batch) => n in batch
    case RemoveOne(name) => name == n
  }

  function Apply(st: Store, m: Mutation): Store
  {
    match m
    case SetOne(name, image) => WithSprite(st, name, image)
    case SetMany(batch) => WithSprites(st, batch)
    case RemoveOne(name) => WithoutSprite(st, name)
  }

  /** Each mutation keeps the delta consistent, only adds delta entries, records every name it changes, and leaves untouched names alone. */
  lemma ApplyEffect(st: Store, m: Mutation)
    ensures var r := Apply(st, m);
      && (Consistent(st) ==> Consistent(r))
      && st.dirty.Keys <= r.dirty.Keys
      && (forall n :: Lookup(r.sprites, n) != Lookup(st.sprites, n) ==> n in r.dirty)
      && (forall n :: !Touches(m, n) ==> SameAt(r, st, n))
  {
    match m
    case SetOne(name, image) => WithSpriteEffect(st, name, image);
    case SetMany(batch) => WithSpritesEffect(st, batch);
    case RemoveOne(name) => WithoutSpriteEffect(st, name);
  }

  /** No mutation of `ms` names `n`. */
  predicate Untouched(ms: seq<Mutation>, n: string)
  {
    forall i :: 0 <= i < |ms| ==> !Touches(ms[i], n)
  }

  function Run(st: Store, ms: seq<Mutation>): Store
    decreases |ms|
  {
    if ms == [] then st else Run(Apply(st, ms[0]), ms[1..])
  }

  /**
   Between two drains the delta has one entry per name whose image changed,
   each entry holds the final state of its name (set-then-remove gives a
   removal marker, remove-then-set the final image), and names no mutation
   touched do not enter it.
   */
  lemma {:induction false} RunRecordsEveryChange(st: Store, ms: seq<Mutation>)
    requires Consistent(st)
    ensures Consistent(Run(st, ms))
    ensures st.dirty.Keys <= Run(st, ms).dirty.Keys
    ensures forall n :: Lookup(Run(st, ms).sprites, n) != Lookup(st.sprites, n) ==> n in Run(st, ms).dirty
    ensures forall n :: Untouched(ms, n) ==> SameAt(Run(st, ms), st, n)
    decreases |ms|
  {
    if ms != [] {
      var st1 := Apply(st, ms[0]);
      var r := Run(st1, ms[1..]);
      assert Run(st, ms) == r;
      ApplyEffect(st, ms[0]);
      RunRecordsEveryChange(st1, ms[1..]);
      forall n | Lookup(r.sprites, n) != Lookup(st.sprites, n)
        ensures n in r.dirty
      {
        if Lookup(st1.sprites, n) != Lookup(st.sprites, n) {
          assert n in st1.dirty;
        }
      }
      forall n | Untouched(ms, n)
        ensures SameAt(r, st, n)
      {
        assert !Touches(ms[0], n);
        assert Untouched(ms[1..], n) by {
          forall i | 0 <= i < |ms| - 1
            ensures !Touches(ms[1..][i], n)
          {
            assert ms[1..][i] == ms[i + 1];
          }
        }
        assert SameAt(st1, st, n);
        assert SameAt(r, st1, n);
      }
    }
  }

  // ---------------------------------------------------------------------------
  // The renderer's side
  // ---------------------------------------------------------------------------

  /**
   What a renderer does with a drained delta: upload every image into its
   atlas and evict every name marked removed.
   */
  function ApplyDelta(atlas: Sprites, delta: Delta): (r: Sprites)
    ensures forall n :: n in delta ==> Lookup(r, n) == delta[n]
    ensures forall n :: n !in delta ==> Lookup(r, n) == Lookup(atlas, n)
  {
    map n | n in atlas.Keys + delta.Keys && (n in delta ==> delta[n].Some?) ::
      if n in delta then delta[n].value else atlas[n]
  }

  lemma SpritesExt(a: Sprites, b: Sprites)
    requires forall n :: Lookup(a, n) == Lookup(b, n)
    ensures a == b
  {
    forall n | n in a ensures n in b && a[n] == b[n] {
      assert Lookup(a, n) == Lookup(b, n);
    }
    forall n | n in b ensures n in a {
      assert Lookup(a, n) == Lookup(b, n);
    }
  }

  /**
   A renderer whose atlas, updated with the pending delta, equals the store
   stays in step: after any mutations, applying the delta it drains next
   gives exactly the store's images.
   */
  lemma RendererAtlasTracksStore(atlas: Sprites, st: Store, ms: seq<Mutation>)
    requires Consistent(st) && ApplyDelta(atlas, st.dirty) == st.sprites
    ensures ApplyDelta(atlas, Run(st, ms).dirty) == Run(st, ms).sprites
  {
    var r := Run(st, ms);
    RunRecordsEveryChange(st, ms);
    forall n ensures Lookup(ApplyDelta(atlas, r.dirty), n) == Lookup(r.sprites, n) {
      if n !in r.dirty {
        assert n !in st.dirty;
        assert Lookup(atlas, n) == Lookup(ApplyDelta(atlas, st.dirty), n);
      }
    }
    SpritesExt(ApplyDelta(atlas, r.dirty), r.sprites);
  }
}
