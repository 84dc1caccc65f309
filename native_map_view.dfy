/**
 The EGL configuration choice of the Android map view
 (android/jni/NativeMapView.cpp): the version gate of initializeContext, the
 per-config acceptance rule of chooseConfig, chooseConfig's scan over the
 configs EGL offers, and the caller's check of its result.

 The EGL display and config handles are not modelled: a config is the list
 of answers that eglGetConfigAttrib gives for the ten attributes chooseConfig
 asks about, each either a value or a failure.
 */
module NativeMapView {

  // ---------------------------------------------------------------------------
  // Version gate (initializeContext)
  // ---------------------------------------------------------------------------

  /** initializeContext gives up when this holds of the version eglInitialize reports. */
  predicate VersionTooLow(major: int, minor: int)
  {
    major <= 1 && minor < 3
  }

  /** Version `major.minor` comes before version `wantMajor.wantMinor`. */
  predicate VersionBelow(major: int, minor: int, wantMajor: int, wantMinor: int)
  {
    major < wantMajor || (major == wantMajor && minor < wantMinor)
  }

  /** 1.2 is refused; 1.3, 1.4 and 2.0 pass. */
  lemma VersionGateExamples()
    ensures VersionTooLow(1, 2)
    ensures !VersionTooLow(1, 3) && !VersionTooLow(1, 4) && !VersionTooLow(2, 0)
  {
  }

  /** For every version from 1.0 on, the gate refuses exactly the versions below 1.3. */
  lemma VersionGateFromOne(major: int, minor: int)
    requires major >= 1
    ensures VersionTooLow(major, minor) <==> VersionBelow(major, minor, 1, 3)
  {
  }

  /**
   As written, the gate lets version 0.3 through although it is below 1.3,
   while it refuses the later version 1.2: it is not monotone in the version.
   */
  lemma VersionGateAcceptsZeroThree()
    ensures !VersionTooLow(0, 3) && VersionBelow(0, 3, 1, 3)
    ensures VersionBelow(0, 3, 1, 2) && VersionTooLow(1, 2)
  {
  }

  /** The gate the error message ("need 1.3") asks for: refuse every version below 1.3. */
  predicate VersionTooLowIntended(major: int, minor: int)
  {
    VersionBelow(major, minor, 1, 3)
  }

  /**
   The intended gate is monotone: a version it accepts stays accepted by
   every later version. It agrees with the gate as written exactly outside
   the versions 0.x with x >= 3 (and below: -1.5 and the like).
   */
  lemma IntendedVersionGate(major: int, minor: int, laterMajor: int, laterMinor: int)
    ensures (!VersionTooLowIntended(major, minor) && !VersionBelow(laterMajor, laterMinor, major, minor))
            ==> !VersionTooLowIntended(laterMajor, laterMinor)
    ensures VersionTooLowIntended(major, minor) != VersionTooLow(major, minor) <==> major < 1 && minor >= 3
  {
  }

  // ---------------------------------------------------------------------------
  // Config choice (chooseConfig)
  // ---------------------------------------------------------------------------

  /** The outcome of one eglGetConfigAttrib call. */
  datatype Query = Answer(value: int) | QueryFailed

  /** The ten attributes chooseConfig asks of one config, in the order it asks them. */
  datatype ConfigQueries = ConfigQueries(
    bits: Query, red: Query, green: Query, blue: Query, alpha: Query,
    alphaMask: Query, depth: Query, stencil: Query, sampleBuffers: Query, samples: Query)

  /** Every query about the config succeeded. */
  predicate Answered(c: ConfigQueries)
  {
    && c.bits.Answer? && c.red.Answer? && c.green.Answer? && c.blue.Answer? && c.alpha.Answer?
    && c.alphaMask.Answer? && c.depth.Answer? && c.stencil.Answer?
    && c.sampleBuffers.Answer? && c.samples.Answer?
  }

  /**
   The acceptance rule: a 32-bit colour buffer with 8 bits each of red,
   green and blue, no alpha or 8 bits of it, and no multisampling. Alpha
   mask, depth, stencil and sample buffers are asked for but not checked.
   */
  predicate ConfigOk(c: ConfigQueries)
    requires Answered(c)
  {
    && c.bits.value == 32
    && c.red.value == 8
    && c.green.value == 8
    && c.blue.value == 8
    && (c.alpha.value == 0 || c.alpha.value == 8)
    && c.samples.value == 0
  }

  predicate AllAnswered(configs: seq<ConfigQueries>)
  {
    forall i :: 0 <= i < |configs| ==> Answered(configs[i])
  }

  /** The last acceptable config among the first `n`, or -1 when there is none. */
  function LastOk(configs: seq<ConfigQueries>, n: nat): (r: int)
    requires n <= |configs| && forall i :: 0 <= i < n ==> Answered(configs[i])
    ensures -1 <= r < n
    ensures r >= 0 ==> ConfigOk(configs[r])
    ensures forall j :: r < j < n ==> !ConfigOk(configs[j])
  {
    if n == 0 then -1
    else if ConfigOk(configs[n - 1]) then n - 1
    else LastOk(configs, n - 1)
  }

  /**
   What chooseConfig returns: the last acceptable config, -1 if there is
   none, and 0 (the `false` it returns) as soon as any query fails.
   */
  function Chosen(configs: seq<ConfigQueries>): int
  {
    if AllAnswered(configs) then LastOk(configs, |configs|) else 0
  }

  /** chooseConfig: scan the configs, remember the last acceptable one. */
  method ChooseConfig(configs: seq<ConfigQueries>) returns (chosen: int)
    ensures chosen == Chosen(configs)
    ensures -1 <= chosen < |configs|
    ensures !AllAnswered(configs) ==> chosen == 0
    ensures AllAnswered(configs) && chosen >= 0 ==> ConfigOk(configs[chosen])
    ensures AllAnswered(configs) ==> forall j :: chosen < j < |configs| ==> !ConfigOk(configs[j])
    ensures AllAnswered(configs) ==>
              (chosen == -1 <==> forall j :: 0 <= j < |configs| ==> !ConfigOk(configs[j]))
  {
    chosen := -1;
    var i := 0;
    while i < |configs|
      invariant 0 <= i <= |configs|
      invariant forall k :: 0 <= k < i ==> Answered(configs[k])
      invariant chosen == LastOk(configs, i)
    {
      var c := configs[i];
      if c.bits.QueryFailed? { return 0; }
      if c.red.QueryFailed? { return 0; }
      if c.green.QueryFailed? { return 0; }
      if c.blue.QueryFailed? { return 0; }
      if c.alpha.QueryFailed? { return 0; }
      if c.alphaMask.QueryFailed? { return 0; }
      if c.depth.QueryFailed? { return 0; }
      if c.stencil.QueryFailed? { return 0; }
      if c.sampleBuffers.QueryFailed? { return 0; }
      if c.samples.QueryFailed? { return 0; }

      var configOk := true;
      configOk := configOk && c.bits.value == 32;
      configOk := configOk && c.red.value == 8;
      configOk := configOk && c.green.value == 8;
      configOk := configOk && c.blue.value == 8;
      configOk := configOk && (c.alpha.value == 0 || c.alpha.value == 8);
      configOk := configOk && c.samples.value == 0;

      if configOk {
        chosen := i;
      }
      i := i + 1;
    }
  }

  /**
   The two configs answered the same for every attribute the rule checks,
   and their other queries succeeded or failed alike; the values of alpha
   mask, depth, stencil and sample buffers may differ.
   */
  predicate AgreeOnChecked(c: ConfigQueries, d: ConfigQueries)
  {
    && c.bits == d.bits && c.red == d.red && c.green == d.green && c.blue == d.blue
    && c.alpha == d.alpha && c.samples == d.samples
    && c.alphaMask.Answer? == d.alphaMask.Answer?
    && c.depth.Answer? == d.depth.Answer?
    && c.stencil.Answer? == d.stencil.Answer?
    && c.sampleBuffers.Answer? == d.sampleBuffers.Answer?
  }

  lemma {:induction false} LastOkIgnoresUnchecked(cs: seq<ConfigQueries>, ds: seq<ConfigQueries>, n: nat)
    requires n <= |cs| == |ds|
    requires forall i :: 0 <= i < |cs| ==> AgreeOnChecked(cs[i], ds[i])
    requires forall i :: 0 <= i < n ==> Answered(cs[i])
    ensures forall i :: 0 <= i < n ==> Answered(ds[i])
    ensures LastOk(cs, n) == LastOk(ds, n)
  {
    if n > 0 {
      LastOkIgnoresUnchecked(cs, ds, n - 1);
      assert AgreeOnChecked(cs[n - 1], ds[n - 1]);
    }
  }

  /** Alpha mask, depth, stencil and sample-buffer values never influence the choice. */
  lemma ChoiceIgnoresUnchecked(cs: seq<ConfigQueries>, ds: seq<ConfigQueries>)
    requires |cs| == |ds|
    requires forall i :: 0 <= i < |cs| ==> AgreeOnChecked(cs[i], ds[i])
    ensures Chosen(cs) == Chosen(ds)
  {
    if AllAnswered(cs) {
      LastOkIgnoresUnchecked(cs, ds, |cs|);
    } else {
      var i :| 0 <= i < |cs| && !Answered(cs[i]);
      assert AgreeOnChecked(cs[i], ds[i]);
    }
  }

  // ---------------------------------------------------------------------------
  // The caller (initializeContext)
  // ---------------------------------------------------------------------------

  /** initializeContext goes on with the chosen config unless the index is negative. */
  predicate CallerAccepts(chosen: int)
  {
    !(chosen < 0)
  }

  /** A 16-bit RGB565 config, which the rule rejects. */
  const Rgb565: ConfigQueries :=
    ConfigQueries(Answer(16), Answer(5), Answer(6), Answer(5), Answer(0),
                  Answer(0), Answer(16), Answer(8), Answer(0), Answer(0))

  /** A config whose first query (EGL_BUFFER_SIZE) fails. */
  const Unreadable: ConfigQueries :=
    ConfigQueries(QueryFailed, Answer(8), Answer(8), Answer(8), Answer(8),
                  Answer(0), Answer(16), Answer(8), Answer(0), Answer(0))

  /**
   As written, a failed query makes chooseConfig return 0, which the
   caller's `< 0` check lets through as a valid choice: with an unacceptable
   config 0 and a config 1 whose query fails, the index 0 passes the check.
   (initializeContext then fails on its next query instead, because the
   failing branch has already reset the display; that is not modelled.)
   */
  lemma FailedQueryPassesCallerCheck()
    ensures var cs := [Rgb565, Unreadable];
      && Chosen(cs) == 0
      && CallerAccepts(Chosen(cs))
      && Answered(cs[0]) && !ConfigOk(cs[0])
  {
    assert !Answered([Rgb565, Unreadable][1]);
  }

  /** The evident intent: report a failed query as "no config" (-1). */
  function ChosenIntended(configs: seq<ConfigQueries>): (r: int)
    ensures -1 <= r < |configs|
    ensures CallerAccepts(r) ==> Answered(configs[r]) && ConfigOk(configs[r])
    ensures AllAnswered(configs) ==> r == Chosen(configs)
    ensures !AllAnswered(configs) ==> r == -1
  {
    if AllAnswered(configs) then LastOk(configs, |configs|) else -1
  }
}
