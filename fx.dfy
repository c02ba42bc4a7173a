/**
 * `fx.py` of the data generator: a dry sound is run through a list of
 * effects, one call of an effect function per effect, and `_convolve`, the
 * default effect function, picks how to prepare and normalise the two
 * signals it convolves. The audio library calls (`__set_sample_rate`,
 * `__is_mono`, `__convert`, `__normalize`, `convolve`, `__float2pcm`) are
 * opaque here: they are parameters, gathered in a `Library` record, over an
 * abstract signal type.
 */
module Fx {

  /** `__normalize(x)` scales by the peak; `__normalize(x, sum)` by the sum. */
  datatype Normalization = Peak | Sum

  /**
   * The layout argument of `__convert`: `Mono` is the call with `__mono`,
   * `Unchanged` the call without a layout argument. `convert` is a parameter
   * of the model, so nothing here depends on what that default does.
   */
  datatype Layout = Mono | Unchanged

  /** How both inputs of a convolution are prepared. */
  datatype Treatment = Treatment(layout: Layout, normalization: Normalization)

  /** The audio library calls `_convolve` makes, over signals of type `S`. */
  datatype Library<!S> = Library(
    setSampleRate: (S, nat) -> S,
    isMono: S -> bool,
    convert: (S, Layout) -> S,
    normalize: (S, Normalization) -> S,
    convolve: (S, S, string) -> S,
    ndim: S -> nat,
    float2pcm: S -> S)

  /** The two `[audio]` settings `_convolve` reads: `s_rate` and `conv_mod`. */
  datatype Config = Config(sampleRate: nat, convMode: string)

  /** The choice on the two resampled inputs: any mono input sends both through a mono downmix and peak normalisation. */
  function InputTreatment(dryIsMono: bool, fxIsMono: bool): (t: Treatment)
    ensures t.layout == Mono <==> dryIsMono || fxIsMono
    ensures t.normalization == Peak <==> t.layout == Mono
  {
    if dryIsMono || fxIsMono then Treatment(Mono, Peak) else Treatment(Unchanged, Sum)
  }

  /** The choice on the convolution's result: two-dimensional results are sum-normalised, the others peak-normalised. */
  function OutputNormalization(ndim: nat): (n: Normalization)
    ensures n == Sum <==> ndim == 2
  {
    if ndim == 2 then Sum else Peak
  }

  /** One input after resampling, conversion and normalisation. */
  function Prepared<S>(lib: Library<S>, resampled: S, t: Treatment): S {
    lib.normalize(lib.convert(resampled, t.layout), t.normalization)
  }

  /** `_convolve(dry, fx)`. */
  function Convolve<S>(lib: Library<S>, cfg: Config, dry: S, fx: S): S {
    var dry', fx' := lib.setSampleRate(dry, cfg.sampleRate), lib.setSampleRate(fx, cfg.sampleRate);
    var t := InputTreatment(lib.isMono(dry'), lib.isMono(fx'));
    var conv := lib.convolve(Prepared(lib, dry', t), Prepared(lib, fx', t), cfg.convMode);
    lib.float2pcm(lib.normalize(conv, OutputNormalization(lib.ndim(conv))))
  }

  /** The choice does not depend on which of the two inputs is the dry one. */
  lemma InputTreatmentSymmetric(dryIsMono: bool, fxIsMono: bool)
    ensures InputTreatment(dryIsMono, fxIsMono) == InputTreatment(fxIsMono, dryIsMono)
  {
  }

  /**
   * With a convolution that does not care about the order of its operands,
   * `_convolve(dry, fx)` and `_convolve(fx, dry)` give the same signal: both
   * inputs are prepared alike whichever is the dry one.
   */
  lemma ConvolveSymmetric<S>(lib: Library<S>, cfg: Config, dry: S, fx: S)
    requires forall a: S, b: S :: lib.convolve(a, b, cfg.convMode) == lib.convolve(b, a, cfg.convMode)
    ensures Convolve(lib, cfg, dry, fx) == Convolve(lib, cfg, fx, dry)
  {
    var dry', fx' := lib.setSampleRate(dry, cfg.sampleRate), lib.setSampleRate(fx, cfg.sampleRate);
    var dryIsMono, fxIsMono := lib.isMono(dry'), lib.isMono(fx');
    InputTreatmentSymmetric(dryIsMono, fxIsMono);
    var t := InputTreatment(dryIsMono, fxIsMono);
    assert lib.convolve(Prepared(lib, dry', t), Prepared(lib, fx', t), cfg.convMode)
        == lib.convolve(Prepared(lib, fx', t), Prepared(lib, dry', t), cfg.convMode);
  }

  /**
   * `_apply_fxs(dry, fxs, func)`. `calls` records, in order, the arguments
   * of every call of `func`.
   */
  method ApplyFxs<S, F, W>(dry: S, fxs: seq<F>, func: (S, F) -> W, frameCount: S -> nat)
    returns (wetSignals: seq<W>, ghost calls: seq<(S, F)>)
    ensures frameCount(dry) == 0 ==> wetSignals == [] && calls == []
    ensures frameCount(dry) != 0 ==> |wetSignals| == |fxs| && |calls| == |fxs|
    ensures frameCount(dry) != 0 ==> forall k :: 0 <= k < |fxs| ==> wetSignals[k] == func(dry, fxs[k])
    ensures frameCount(dry) != 0 ==> forall k :: 0 <= k < |fxs| ==> calls[k] == (dry, fxs[k])
  {
    wetSignals := [];
    calls := [];
    if frameCount(dry) == 0 {
      return;
    }
    for i := 0 to |fxs|
      invariant |wetSignals| == i && |calls| == i
      invariant forall k :: 0 <= k < i ==> wetSignals[k] == func(dry, fxs[k])
      invariant forall k :: 0 <= k < i ==> calls[k] == (dry, fxs[k])
    {
      var fx := fxs[i];
      calls := calls + [(dry, fx)];
      wetSignals := wetSignals + [func(dry, fx)];
    }
  }

  /** `_apply_fxs(dry, fxs)` with its default effect function, `_convolve`. */
  method ApplyConvolutions<S>(lib: Library<S>, cfg: Config, dry: S, fxs: seq<S>, frameCount: S -> nat)
    returns (wetSignals: seq<S>)
    ensures frameCount(dry) == 0 ==> wetSignals == []
    ensures frameCount(dry) != 0 ==> |wetSignals| == |fxs|
    ensures frameCount(dry) != 0 ==> forall k :: 0 <= k < |fxs| ==> wetSignals[k] == Convolve(lib, cfg, dry, fxs[k])
  {
    ghost var calls;
    wetSignals, calls := ApplyFxs(dry, fxs, (d, f) => Convolve(lib, cfg, d, f), frameCount);
  }
}
