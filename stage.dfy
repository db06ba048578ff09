/**
 * The stage contract (src/native/stages/stage.h): the seven stage kinds, the
 * per-tick token a stage returns from `process`, and the defaults of the
 * optional `pause`, `resume` and `isSupported` operations.
 *
 * `process(void *input)` becomes a function from one `Token` to the next. The
 * null result is `NoOutput`; a texture is `Texture`; the address of a
 * `DataAndSize` is `Buffer`. The input is read-only to the receiving stage:
 * a `Token` is a value, so no stage can change what it was given.
 */
module Stage {
  import opened Common
  import opened Text

  datatype StageKind = DesktopDuplication | Nvenc | Wasapi | WavWriter | FileWriter | Amf | GdiCapture

  datatype Token = NoOutput | Texture(id: nat) | Buffer(data: DataAndSize)

  /** The token for a stage-owned texture that may still be null. */
  function TextureToken(texture: Option<nat>): (r: Token)
    ensures r == NoOutput <==> texture.None?
    ensures texture.Some? ==> r == Texture(texture.value)
  {
    match texture
    case None => NoOutput
    case Some(t) => Texture(t)
  }

  /** What `pause()` or `resume()` does to a stage's own state. */
  datatype Effect = NoEffect | ResetLimiter

  /** No stage overrides `pause()`: the default body is empty. */
  function PauseEffect(kind: StageKind): Effect
  {
    NoEffect
  }

  /** Only the two capture stages override `resume()`; they rebase their limiter. */
  function ResumeEffect(kind: StageKind): Effect
  {
    if kind == DesktopDuplication || kind == GdiCapture then ResetLimiter else NoEffect
  }

  /** Only the two hardware encoders override `isSupported()`; everything else is supported. */
  function OverridesIsSupported(kind: StageKind): bool
  {
    kind == Nvenc || kind == Amf
  }

  /** The defaults of stage.h hold for every stage that does not override them. */
  lemma DefaultsAreNoOps(kind: StageKind)
    ensures PauseEffect(kind) == NoEffect
    ensures kind !in {DesktopDuplication, GdiCapture} ==> ResumeEffect(kind) == NoEffect
  {
  }
}
