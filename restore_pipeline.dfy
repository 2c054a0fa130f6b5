/** The backend's operation dispatch: which transform `restore_old_photo`
    runs for an operation name and with which resolved parameters, and the
    integer kernel sizes `op_unsharp` and `op_bilateral` derive. The pixel
    work itself is not modelled; Python floats are exact reals here. */
module RestorePipeline {
  import opened Wrappers

  /** A transform with the parameters it is called with. `Bilateral` carries
      the filter diameter and `Unsharp` the effective radius and Gaussian
      kernel size that the transform functions compute. */
  datatype Transform =
    | ClassicalPipeline(h: real, claheClip: real, sharpAmount: real)
    | Denoise(h: real)
    | Bilateral(sigmaColor: real, sigmaSpace: real, diameter: int)
    | Clahe(clipLimit: real)
    | Unsharp(amount: real, radius: real, ksize: int)
    | Sharpen(strength: real)
    | BrightnessContrast(brightness: real, contrast: real)

  /** The operation names `restore_old_photo` recognises. */
  const Operations: set<string> := {"denoise", "bilateral", "clahe", "unsharp", "sharpen", "brightness"}

  /** The operation name of a transform other than the classical pipeline. */
  function OpName(t: Transform): string
    requires !t.ClassicalPipeline?
  {
    match t
    case Denoise(_) => "denoise"
    case Bilateral(_, _, _) => "bilateral"
    case Clahe(_) => "clahe"
    case Unsharp(_, _, _) => "unsharp"
    case Sharpen(_) => "sharpen"
    case BrightnessContrast(_, _) => "brightness"
  }

  /** The `params` keys each operation consults. */
  function KeysRead(op: string): set<string> {
    if op == "denoise" then {"h"}
    else if op == "bilateral" then {"sigmaColor", "sigmaSpace"}
    else if op == "clahe" then {"clahe"}
    else if op == "unsharp" then {"sharp", "radius"}
    else if op == "sharpen" then {"sharp"}
    else if op == "brightness" then {"brightness", "contrast"}
    else {}
  }

  /** Python's `dict.get(key, default)`. */
  function Get(params: map<string, real>, key: string, default: real): real {
    if key in params then params[key] else default
  }

  /** Python's `int()` on a float: truncation toward zero. */
  function Trunc(x: real): (n: int)
    ensures 0.0 <= x ==> 0 <= n && n as real <= x < n as real + 1.0
    ensures x < 0.0 ==> n <= 0 && n as real - 1.0 < x <= n as real
  {
    if x >= 0.0 then x.Floor else -((-x).Floor)
  }

  predicate Odd(n: int) {
    n % 2 == 1
  }

  /** `op_bilateral`'s diameter, `int(max(5, sigma_space * 2 // 5) // 2 * 2 + 1)`:
      the least odd integer not below `max(5, floor(2 * sigma_space / 5))`. */
  function BilateralDiameter(sigmaSpace: real): (d: int)
    ensures Odd(d) && d >= 5
    ensures var m := if 5 >= (sigmaSpace * 2.0 / 5.0).Floor then 5 else (sigmaSpace * 2.0 / 5.0).Floor;
            m <= d <= m + 1
  {
    var q := (sigmaSpace * 2.0 / 5.0).Floor;
    var m := if 5 >= q then 5 else q;
    m / 2 * 2 + 1
  }

  /** `op_unsharp`'s radius: raised to 0.5 when below it. */
  function UnsharpRadius(radius: real): (r: real)
    ensures r >= 0.5
    ensures r >= radius
    ensures radius >= 0.5 ==> r == radius
    ensures radius < 0.5 ==> r == 0.5
  {
    if radius < 0.5 then 0.5 else radius
  }

  /** `op_unsharp`'s Gaussian kernel size, `int(radius * 4 + 1)` bumped to
      the next odd number: odd, at least 3, and wider than four radii. */
  function UnsharpKernelSize(radius: real): (k: int)
    ensures Odd(k) && k >= 3
    ensures var n := Trunc(UnsharpRadius(radius) * 4.0 + 1.0); n <= k <= n + 1
    ensures k as real > 4.0 * UnsharpRadius(radius)
  {
    var r := UnsharpRadius(radius);
    var k := Trunc(r * 4.0 + 1.0);
    if k % 2 == 0 then k + 1 else k
  }

  /** Odd-sized kernels, as the OpenCV filters need them. */
  predicate KernelSizesValid(t: Transform) {
    && (t.Bilateral? ==> Odd(t.diameter) && t.diameter >= 5)
    && (t.Unsharp? ==> Odd(t.ksize) && t.ksize >= 3 && t.radius >= 0.5)
  }

  /** `restore_old_photo`: an absent, empty, `"pipeline"` or unknown
      operation runs the classical pipeline with the given strengths; a known
      operation runs its own transform, each parameter taken from `params`
      when present and from the default otherwise. */
  function RestoreOldPhoto(op: Option<string> := None, h: real := 10.0, claheClip: real := 2.0,
                           sharpAmount: real := 1.0, params: Option<map<string, real>> := None): (t: Transform)
    ensures t.ClassicalPipeline? <==> !(op.Some? && op.value in Operations)
    ensures t.ClassicalPipeline? ==> t == ClassicalPipeline(h, claheClip, sharpAmount)
    ensures !t.ClassicalPipeline? ==> OpName(t) == op.value
    ensures KernelSizesValid(t)
    ensures t.Bilateral? ==> t.diameter == BilateralDiameter(t.sigmaSpace)
    ensures t.Unsharp? ==> t.ksize == UnsharpKernelSize(t.radius)
  {
    var p := if params.None? then map[] else params.value;
    if op.None? || op.value == "" || op.value == "pipeline" then
      ClassicalPipeline(h, claheClip, sharpAmount)
    else if op.value == "denoise" then
      Denoise(Get(p, "h", h))
    else if op.value == "bilateral" then
      var sigmaColor := Get(p, "sigmaColor", 75.0);
      var sigmaSpace := Get(p, "sigmaSpace", 25.0);
      Bilateral(sigmaColor, sigmaSpace, BilateralDiameter(sigmaSpace))
    else if op.value == "clahe" then
      Clahe(Get(p, "clahe", claheClip))
    else if op.value == "unsharp" then
      var radius := Get(p, "radius", 1.5);
      Unsharp(Get(p, "sharp", sharpAmount), UnsharpRadius(radius), UnsharpKernelSize(radius))
    else if op.value == "sharpen" then
      Sharpen(Get(p, "sharp", sharpAmount))
    else if op.value == "brightness" then
      BrightnessContrast(Get(p, "brightness", 0.0), Get(p, "contrast", 1.0))
    else
      ClassicalPipeline(h, claheClip, sharpAmount)
  }

  /** A missing `params` behaves as an empty one. */
  lemma AbsentParamsAreEmpty(op: Option<string>, h: real, claheClip: real, sharpAmount: real)
    ensures RestoreOldPhoto(op, h, claheClip, sharpAmount, None)
         == RestoreOldPhoto(op, h, claheClip, sharpAmount, Some(map[]))
  {
  }

  /** Only the keys an operation reads matter: two parameter maps that agree
      on them give the same transform. */
  lemma OnlyReadKeysMatter(op: string, h: real, claheClip: real, sharpAmount: real,
                           p: map<string, real>, q: map<string, real>)
    requires forall k :: k in KeysRead(op) ==> (k in p <==> k in q) && (k in p ==> p[k] == q[k])
    ensures RestoreOldPhoto(Some(op), h, claheClip, sharpAmount, Some(p))
         == RestoreOldPhoto(Some(op), h, claheClip, sharpAmount, Some(q))
  {
  }

  /** A key missing from `params` takes its default, whatever other keys are
      present: the request's `h`, `clahe_clip` and `sharp_amount` where the
      operation uses them, sigmas 75 and 25 (diameter 11), radius 1.5
      (kernel 7), brightness 0 and contrast 1. */
  lemma DefaultsForMissingKeys(h: real, claheClip: real, sharpAmount: real, p: map<string, real>)
    ensures "h" !in p ==> RestoreOldPhoto(Some("denoise"), h, claheClip, sharpAmount, Some(p)) == Denoise(h)
    ensures "clahe" !in p ==> RestoreOldPhoto(Some("clahe"), h, claheClip, sharpAmount, Some(p)) == Clahe(claheClip)
    ensures "sharp" !in p ==> RestoreOldPhoto(Some("sharpen"), h, claheClip, sharpAmount, Some(p)) == Sharpen(sharpAmount)
    ensures "sharp" !in p ==> RestoreOldPhoto(Some("unsharp"), h, claheClip, sharpAmount, Some(p)).amount == sharpAmount
    ensures "radius" !in p ==> RestoreOldPhoto(Some("unsharp"), h, claheClip, sharpAmount, Some(p)).radius == 1.5
    ensures "radius" !in p ==> RestoreOldPhoto(Some("unsharp"), h, claheClip, sharpAmount, Some(p)).ksize == 7
    ensures "sigmaColor" !in p ==> RestoreOldPhoto(Some("bilateral"), h, claheClip, sharpAmount, Some(p)).sigmaColor == 75.0
    ensures "sigmaSpace" !in p ==> RestoreOldPhoto(Some("bilateral"), h, claheClip, sharpAmount, Some(p)).sigmaSpace == 25.0
    ensures "sigmaSpace" !in p ==> RestoreOldPhoto(Some("bilateral"), h, claheClip, sharpAmount, Some(p)).diameter == 11
    ensures "brightness" !in p ==> RestoreOldPhoto(Some("brightness"), h, claheClip, sharpAmount, Some(p)).brightness == 0.0
    ensures "contrast" !in p ==> RestoreOldPhoto(Some("brightness"), h, claheClip, sharpAmount, Some(p)).contrast == 1.0
  {
  }

  /** A value present in `params` wins over the corresponding default. */
  lemma ParamsOverrideDefaults(h: real, claheClip: real, sharpAmount: real, p: map<string, real>)
    ensures "h" in p ==> RestoreOldPhoto(Some("denoise"), h, claheClip, sharpAmount, Some(p)) == Denoise(p["h"])
    ensures "clahe" in p ==> RestoreOldPhoto(Some("clahe"), h, claheClip, sharpAmount, Some(p)) == Clahe(p["clahe"])
    ensures "sharp" in p ==> RestoreOldPhoto(Some("sharpen"), h, claheClip, sharpAmount, Some(p)) == Sharpen(p["sharp"])
    ensures "sharp" in p ==> RestoreOldPhoto(Some("unsharp"), h, claheClip, sharpAmount, Some(p)).amount == p["sharp"]
    ensures "radius" in p ==> RestoreOldPhoto(Some("unsharp"), h, claheClip, sharpAmount, Some(p)).radius == UnsharpRadius(p["radius"])
    ensures "sigmaSpace" in p ==> RestoreOldPhoto(Some("bilateral"), h, claheClip, sharpAmount, Some(p)).sigmaSpace == p["sigmaSpace"]
    ensures "sigmaColor" in p ==> RestoreOldPhoto(Some("bilateral"), h, claheClip, sharpAmount, Some(p)).sigmaColor == p["sigmaColor"]
    ensures "brightness" in p ==> RestoreOldPhoto(Some("brightness"), h, claheClip, sharpAmount, Some(p)).brightness == p["brightness"]
    ensures "contrast" in p ==> RestoreOldPhoto(Some("brightness"), h, claheClip, sharpAmount, Some(p)).contrast == p["contrast"]
  {
  }
}
