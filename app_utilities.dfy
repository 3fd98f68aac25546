/** Rendering utilities of the viewer: the CPU-path affine matrices and the
    nearest-neighbour inverse warp, the GPU-path shader dispatch with the
    two-pass pixelation and its render-target sizes, and the framebuffer
    lifecycle over an abstract GL handle allocator. */
module AppUtilities {

  datatype Option<T> = None | Some(value: T)

  // ------------------------------------------------------------ 3x3 matrices

  /** A 3x3 matrix acting on homogeneous image coordinates (x = column,
      y = row, 1). Every matrix the viewer builds has the bottom row (0, 0, 1),
      so only the two top rows are stored. */
  datatype Mat3 = Mat3(
    m00: real, m01: real, m02: real,
    m10: real, m11: real, m12: real)

  datatype Point = Point(x: real, y: real)

  const IDENTITY: Mat3 := Mat3(1.0, 0.0, 0.0, 0.0, 1.0, 0.0)

  /** The matrix product, with both bottom rows (0, 0, 1). */
  function Mul(a: Mat3, b: Mat3): Mat3
  {
    Mat3(
      a.m00 * b.m00 + a.m01 * b.m10, a.m00 * b.m01 + a.m01 * b.m11, a.m00 * b.m02 + a.m01 * b.m12 + a.m02,
      a.m10 * b.m00 + a.m11 * b.m10, a.m10 * b.m01 + a.m11 * b.m11, a.m10 * b.m02 + a.m11 * b.m12 + a.m12)
  }

  /** The matrix applied to the column vector (p.x, p.y, 1), first two components. */
  function Apply(m: Mat3, p: Point): Point
  {
    Point(m.m00 * p.x + m.m01 * p.y + m.m02, m.m10 * p.x + m.m11 * p.y + m.m12)
  }

  /** One row of a product applied to a point equals that row applied to the
      product's right factor applied to the point. */
  lemma RowComposes(u0: real, u1: real, u2: real, b00: real, b01: real, b02: real,
                    b10: real, b11: real, b12: real, x: real, y: real)
    ensures (u0 * b00 + u1 * b10) * x + (u0 * b01 + u1 * b11) * y + (u0 * b02 + u1 * b12 + u2)
         == u0 * (b00 * x + b01 * y + b02) + u1 * (b10 * x + b11 * y + b12) + u2
  {
    assert (u0 * b00 + u1 * b10) * x == u0 * (b00 * x) + u1 * (b10 * x);
    assert (u0 * b01 + u1 * b11) * y == u0 * (b01 * y) + u1 * (b11 * y);
    assert u0 * (b00 * x + b01 * y + b02) == u0 * (b00 * x) + u0 * (b01 * y) + u0 * b02;
    assert u1 * (b10 * x + b11 * y + b12) == u1 * (b10 * x) + u1 * (b11 * y) + u1 * b12;
  }

  /** Multiplying matrices composes their actions on points: the right factor acts first. */
  lemma ApplyMul(a: Mat3, b: Mat3, p: Point)
    ensures Apply(Mul(a, b), p) == Apply(a, Apply(b, p))
  {
    var m, q := Mul(a, b), Apply(b, p);
    RowComposes(a.m00, a.m01, a.m02, b.m00, b.m01, b.m02, b.m10, b.m11, b.m12, p.x, p.y);
    assert Apply(m, p).x == Apply(a, q).x;
    RowComposes(a.m10, a.m11, a.m12, b.m00, b.m01, b.m02, b.m10, b.m11, b.m12, p.x, p.y);
    assert Apply(m, p).y == Apply(a, q).y;
  }

  /** getTranslationMatrix: the identity with (0,2) = xoff and (1,2) = yoff. */
  function TranslationMatrix(xoff: real, yoff: real): (t: Mat3)
    ensures t == IDENTITY.(m02 := xoff, m12 := yoff)
  {
    Mat3(1.0, 0.0, xoff, 0.0, 1.0, yoff)
  }

  /** A translation matrix moves every point by (xoff, yoff). */
  lemma TranslationMoves(xoff: real, yoff: real, p: Point)
    ensures Apply(TranslationMatrix(xoff, yoff), p) == Point(p.x + xoff, p.y + yoff)
  {
  }

  /** Translating back undoes a translation. */
  lemma TranslationInverse(xoff: real, yoff: real)
    ensures Mul(TranslationMatrix(-xoff, -yoff), TranslationMatrix(xoff, yoff)) == IDENTITY
  {
  }

  /** getScaleMatrix: translate the centre to the origin, scale by
      (xscale, yscale), translate back. */
  function ScaleMatrix(xscale: real, yscale: real, center: Point): (m: Mat3)
    ensures m.m00 == xscale && m.m01 == 0.0 && m.m10 == 0.0 && m.m11 == yscale
  {
    var scale := IDENTITY.(m00 := xscale, m11 := yscale);
    Mul(Mul(TranslationMatrix(center.x, center.y), scale), TranslationMatrix(-center.x, -center.y))
  }

  /** getRotationMatrix with the cosine and sine of the angle given: the same
      conjugation around `center` with a rotation in the middle. */
  function RotationMatrix(cosA: real, sinA: real, center: Point): (m: Mat3)
    ensures m.m00 == cosA && m.m01 == -sinA && m.m10 == sinA && m.m11 == cosA
  {
    var rot := IDENTITY.(m00 := cosA, m01 := -sinA, m10 := sinA, m11 := cosA);
    Mul(Mul(TranslationMatrix(center.x, center.y), rot), TranslationMatrix(-center.x, -center.y))
  }

  /** The pivot of a scaling stays where it is. */
  lemma ScaleFixesCenter(xscale: real, yscale: real, center: Point)
    ensures Apply(ScaleMatrix(xscale, yscale, center), center) == center
  {
    var scale := IDENTITY.(m00 := xscale, m11 := yscale);
    ApplyMul(Mul(TranslationMatrix(center.x, center.y), scale), TranslationMatrix(-center.x, -center.y), center);
    ApplyMul(TranslationMatrix(center.x, center.y), scale, Point(0.0, 0.0));
  }

  /** A scaling matrix scales every point's offset from the centre. */
  lemma ScaleAboutCenter(xscale: real, yscale: real, center: Point, p: Point)
    ensures Apply(ScaleMatrix(xscale, yscale, center), p)
         == Point(center.x + xscale * (p.x - center.x), center.y + yscale * (p.y - center.y))
  {
    var scale := IDENTITY.(m00 := xscale, m11 := yscale);
    var q := Point(p.x - center.x, p.y - center.y);
    ApplyMul(Mul(TranslationMatrix(center.x, center.y), scale), TranslationMatrix(-center.x, -center.y), p);
    ApplyMul(TranslationMatrix(center.x, center.y), scale, q);
  }

  /** A rotation matrix rotates every point's offset from the centre. */
  lemma RotationAboutCenter(cosA: real, sinA: real, center: Point, p: Point)
    ensures var dx, dy := p.x - center.x, p.y - center.y;
      Apply(RotationMatrix(cosA, sinA, center), p)
      == Point(center.x + (cosA * dx - sinA * dy), center.y + (sinA * dx + cosA * dy))
  {
    var rot := IDENTITY.(m00 := cosA, m01 := -sinA, m10 := sinA, m11 := cosA);
    var q := Point(p.x - center.x, p.y - center.y);
    ApplyMul(Mul(TranslationMatrix(center.x, center.y), rot), TranslationMatrix(-center.x, -center.y), p);
    ApplyMul(TranslationMatrix(center.x, center.y), rot, q);
  }

  /** The pivot of a rotation stays where it is, whatever the angle. */
  lemma RotationFixesCenter(cosA: real, sinA: real, center: Point)
    ensures Apply(RotationMatrix(cosA, sinA, center), center) == center
  {
    var rot := IDENTITY.(m00 := cosA, m01 := -sinA, m10 := sinA, m11 := cosA);
    ApplyMul(Mul(TranslationMatrix(center.x, center.y), rot), TranslationMatrix(-center.x, -center.y), center);
    ApplyMul(TranslationMatrix(center.x, center.y), rot, Point(0.0, 0.0));
  }

  function Abs(x: real): real
  {
    if x < 0.0 then -x else x
  }

  predicate ScaleOn(scale: real)
  {
    Abs(scale - 1.0) > 0.0001
  }

  predicate RotationOn(rotation: real)
  {
    Abs(rotation) > 0.1
  }

  predicate TranslationOn(translationX: real, translationY: real)
  {
    Abs(translationX) > 0.1 || Abs(translationY) > 0.1
  }

  /** The pivot of scaling and rotation: the image centre moved by the translation. */
  function Pivot(cols: int, rows: int, translationX: real, translationY: real): Point
  {
    Point(cols as real / 2.0 + translationX, rows as real / 2.0 + translationY)
  }

  /** The three factors of the composer, each the identity when switched off;
      `cosSin` gives the cosine and sine of an angle in degrees. */
  function ScaleFactor(cols: int, rows: int, translationX: real, translationY: real, scale: real): Mat3
  {
    if ScaleOn(scale) then ScaleMatrix(scale, scale, Pivot(cols, rows, translationX, translationY)) else IDENTITY
  }

  function RotationFactor(cols: int, rows: int, rotation: real, translationX: real, translationY: real,
                          cosSin: real -> (real, real)): Mat3
  {
    if RotationOn(rotation) then
      RotationMatrix(cosSin(rotation).0, cosSin(rotation).1, Pivot(cols, rows, translationX, translationY))
    else IDENTITY
  }

  function TranslationFactor(translationX: real, translationY: real): Mat3
  {
    if TranslationOn(translationX, translationY) then TranslationMatrix(translationX, translationY) else IDENTITY
  }

  /** One conditional step of the composer: multiply `factor` on the right when switched on. */
  function Compose(m: Mat3, on: bool, factor: Mat3): (r: Mat3)
    ensures forall p :: Apply(r, p) == Apply(m, Apply(if on then factor else IDENTITY, p))
  {
    if on then
      assert forall p :: Apply(Mul(m, factor), p) == Apply(m, Apply(factor, p)) by {
        forall p
          ensures Apply(Mul(m, factor), p) == Apply(m, Apply(factor, p))
        {
          ApplyMul(m, factor, p);
        }
      }
      Mul(m, factor)
    else m
  }

  datatype Composite = Composite(matrix: Mat3, needsTransform: bool)

  /** getTransformationMatrix for an image of `cols` x `rows` pixels. */
  function TransformationMatrix(cols: int, rows: int, rotation: real, translationX: real, translationY: real,
                                scale: real, cosSin: real -> (real, real)): (c: Composite)
    ensures c.needsTransform <==> ScaleOn(scale) || RotationOn(rotation) || TranslationOn(translationX, translationY)
    ensures !c.needsTransform ==> c.matrix == IDENTITY
  {
    var center := Pivot(cols, rows, translationX, translationY);
    var m1 := Compose(IDENTITY, ScaleOn(scale), ScaleMatrix(scale, scale, center));
    var m2 := Compose(m1, RotationOn(rotation), RotationMatrix(cosSin(rotation).0, cosSin(rotation).1, center));
    var m3 := Compose(m2, TranslationOn(translationX, translationY), TranslationMatrix(translationX, translationY));
    Composite(m3, ScaleOn(scale) || RotationOn(rotation) || TranslationOn(translationX, translationY))
  }

  /** The composite multiplies I, S, R, T in that order, so it moves a point
      by the translation first, then rotates it, then scales it. */
  lemma CompositeOrder(cols: int, rows: int, rotation: real, translationX: real, translationY: real,
                       scale: real, cosSin: real -> (real, real), p: Point)
    ensures Apply(TransformationMatrix(cols, rows, rotation, translationX, translationY, scale, cosSin).matrix, p)
         == Apply(ScaleFactor(cols, rows, translationX, translationY, scale),
              Apply(RotationFactor(cols, rows, rotation, translationX, translationY, cosSin),
                Apply(TranslationFactor(translationX, translationY), p)))
  {
  }

  /** Only a translation beyond its epsilon: the composite moves every point
      by exactly that translation. */
  lemma PureTranslationComposite(cols: int, rows: int, translationX: real, translationY: real,
                                 cosSin: real -> (real, real), p: Point)
    requires TranslationOn(translationX, translationY)
    ensures TransformationMatrix(cols, rows, 0.0, translationX, translationY, 1.0, cosSin).needsTransform
    ensures Apply(TransformationMatrix(cols, rows, 0.0, translationX, translationY, 1.0, cosSin).matrix, p)
         == Point(p.x + translationX, p.y + translationY)
  {
    CompositeOrder(cols, rows, 0.0, translationX, translationY, 1.0, cosSin, p);
    TranslationMoves(translationX, translationY, p);
  }

  // ------------------------------------------------------------ inverse warp

  newtype byte = x: int | 0 <= x < 256

  /** A three-channel 8-bit pixel (blue, green, red). */
  datatype Pixel = Pixel(b: byte, g: byte, r: byte)

  const BLACK: Pixel := Pixel(0, 0, 0)

  /** The C library's round: to nearest, halves away from zero. */
  function Round(x: real): (n: int)
    ensures x - 0.5 <= n as real <= x + 0.5
  {
    if x >= 0.0 then (x + 0.5).Floor else -((-x + 0.5).Floor)
  }

  lemma RoundInteger(n: int)
    ensures Round(n as real) == n
  {
  }

  /** The source pixel (row, column) that destination pixel (row, col) samples:
      the inverse matrix applied to (col, row, 1), each coordinate rounded. */
  function SourceIndex(invM: Mat3, row: int, col: int): (int, int)
  {
    var p := Apply(invM, Point(col as real, row as real));
    (Round(p.y), Round(p.x))
  }

  /** Destination pixel (row, col): the sampled source pixel when it lies in
      the image, otherwise black. */
  function WarpedPixel(img: array2<Pixel>, invM: Mat3, row: int, col: int): Pixel
    reads img
  {
    var (r, c) := SourceIndex(invM, row, col);
    if 0 <= r < img.Length0 && 0 <= c < img.Length1 then img[r, c] else BLACK
  }

  /** With the inverse of a whole-pixel translation by (dx, dy), destination
      pixel (row, col) samples source pixel (row - dy, col - dx): a marked
      pixel moves exactly by the translation. */
  lemma TranslationWarpShifts(dx: int, dy: int, row: int, col: int)
    ensures SourceIndex(TranslationMatrix(-(dx as real), -(dy as real)), row, col) == (row - dy, col - dx)
  {
    RoundInteger(row - dy);
    RoundInteger(col - dx);
    assert (row as real) - (dy as real) == (row - dy) as real;
    assert (col as real) - (dx as real) == (col - dx) as real;
  }

  /** TransformImageBackwards, given the inverse of the transformation matrix:
      a black image of the same size, each pixel of which is filled from the
      rounded inverse-mapped source position when that lies in bounds. */
  method TransformImageBackwards(img: array2<Pixel>, invM: Mat3) returns (newImg: array2<Pixel>)
    ensures fresh(newImg)
    ensures newImg.Length0 == img.Length0 && newImg.Length1 == img.Length1
    ensures forall row, col :: 0 <= row < img.Length0 && 0 <= col < img.Length1 ==>
      newImg[row, col] == WarpedPixel(img, invM, row, col)
  {
    newImg := new Pixel[img.Length0, img.Length1]((_, _) => BLACK);
    var row := 0;
    while row < img.Length0
      invariant 0 <= row <= img.Length0
      invariant forall i, j :: 0 <= i < row && 0 <= j < img.Length1 ==> newImg[i, j] == WarpedPixel(img, invM, i, j)
      invariant forall i, j :: row <= i < img.Length0 && 0 <= j < img.Length1 ==> newImg[i, j] == BLACK
    {
      var col := 0;
      while col < img.Length1
        invariant 0 <= col <= img.Length1
        invariant forall i, j :: 0 <= i < row && 0 <= j < img.Length1 ==> newImg[i, j] == WarpedPixel(img, invM, i, j)
        invariant forall j :: 0 <= j < col ==> newImg[row, j] == WarpedPixel(img, invM, row, j)
        invariant forall i, j :: row <= i < img.Length0 && 0 <= j < img.Length1 && (i > row || j >= col) ==> newImg[i, j] == BLACK
      {
        var (r, c) := SourceIndex(invM, row, col);
        if r < img.Length0 && c < img.Length1 && r >= 0 && c >= 0 {
          newImg[row, col] := img[r, c];
        }
        col := col + 1;
      }
      row := row + 1;
    }
  }

  // ------------------------------------------------------------ shader dispatch

  /** The texture a draw samples: the live video, or the small pixelation target's texture. */
  datatype Source = VideoTexture | SmallTargetTexture

  /** One draw of the quad: into framebuffer `framebuffer` (0 = the screen),
      with the given viewport, shader and texture. */
  datatype Pass = Pass(framebuffer: nat, viewport: Size, shader: string, texture: Source)

  /** What applyShaderFilters leaves behind: the shader it records as current
      (None for the pixelation path, which never sets it), the quad's shader
      and texture, the passes it drew itself, and the multi-pass flag it returns. */
  datatype Dispatch = Dispatch(currentShader: Option<string>, quadShader: string, quadTexture: Source,
                               passes: seq<Pass>, isMultiPass: bool)

  /** The shader name of a single-pass mode; unknown modes fall back to "none". */
  function ShaderForMode(mode: int): string
  {
    if mode == 0 then "greyscale"
    else if mode == 2 then "sincity"
    else "none"
  }

  /** applyShaderFilters: mode 1 draws the frame twice through "none", first
      into the small target at a tenth of the size, then from that target's
      texture to the screen at full size; every other mode installs one
      shader on the quad over the video texture for the scene pass. */
  function ApplyShaderFilters(mode: int, fboSmall: nat, baseWidth: int, videoAspectRatio: real): (d: Dispatch)
    ensures d.isMultiPass <==> mode == 1
    ensures mode != 1 ==> d.passes == [] && d.quadTexture == VideoTexture && d.currentShader == Some(d.quadShader)
    ensures mode == -1 ==> d.quadShader == "none"
    ensures mode == 0 ==> d.quadShader == "greyscale"
    ensures mode == 2 ==> d.quadShader == "sincity"
    ensures mode !in {-1, 0, 1, 2} ==> d.quadShader == "none"
    ensures mode == 1 ==> d.currentShader == None && d.quadShader == "none" && d.quadTexture == SmallTargetTexture
    ensures mode == 1 ==>
      d.passes == [Pass(fboSmall, SmallSize(baseWidth, videoAspectRatio), "none", VideoTexture),
                   Pass(0, FullSize(baseWidth, videoAspectRatio), "none", SmallTargetTexture)]
  {
    if mode == 1 then
      var small := SmallSize(baseWidth, videoAspectRatio);
      var full := FullSize(baseWidth, videoAspectRatio);
      Dispatch(None, "none", SmallTargetTexture,
               [Pass(fboSmall, small, "none", VideoTexture), Pass(0, full, "none", SmallTargetTexture)], true)
    else
      var name := ShaderForMode(mode);
      Dispatch(Some(name), name, VideoTexture, [], false)
  }

  // ------------------------------------------------------------ render-target sizes

  datatype Size = Size(width: int, height: int)

  /** Conversion of a floating-point value to int: truncation toward zero. */
  function Trunc(x: real): int
  {
    if x >= 0.0 then x.Floor else -((-x).Floor)
  }

  /** Integer division as the source's compiler does it: truncation toward zero. */
  function CDiv(a: int, b: int): (q: int)
    requires b > 0
    ensures a >= 0 ==> q == a / b
    ensures a < 0 ==> q == -((-a) / b)
  {
    if a >= 0 then a / b else -((-a) / b)
  }

  /** The full-size target: baseWidth * aspect by baseWidth pixels. */
  function FullSize(baseWidth: int, videoAspectRatio: real): Size
  {
    Size(Trunc(baseWidth as real * videoAspectRatio), baseWidth)
  }

  /** The small pixelation target: a tenth of the base size, each side truncated. */
  function SmallSize(baseWidth: int, videoAspectRatio: real): Size
  {
    Size(Trunc(baseWidth as real * videoAspectRatio / 10.0), CDiv(baseWidth, 10))
  }

  lemma FloorDivTen(x: real)
    requires x >= 0.0
    ensures (x / 10.0).Floor == x.Floor / 10
  {
    var n := x.Floor;
    var q := n / 10;
    assert 10 * q <= n < 10 * q + 10;
    assert (n as real) <= x < (n as real) + 1.0;
    assert (10 * q) as real <= x < (10 * q + 10) as real;
    assert (q as real) <= x / 10.0 < (q as real) + 1.0;
  }

  /** Truncating x/10 equals dividing the truncated x by 10. */
  lemma TruncDivTen(x: real)
    ensures Trunc(x / 10.0) == CDiv(Trunc(x), 10)
  {
    if x >= 0.0 {
      FloorDivTen(x);
    } else {
      FloorDivTen(-x);
      assert -(x / 10.0) == (-x) / 10.0;
    }
  }

  /** The small target is always exactly a tenth of the full target in both
      dimensions, truncated: this holds for every base width and aspect ratio. */
  lemma SmallIsTenthOfFull(baseWidth: int, videoAspectRatio: real)
    ensures SmallSize(baseWidth, videoAspectRatio) ==
      Size(CDiv(FullSize(baseWidth, videoAspectRatio).width, 10), CDiv(FullSize(baseWidth, videoAspectRatio).height, 10))
  {
    TruncDivTen(baseWidth as real * videoAspectRatio);
  }

  // ------------------------------------------------------------ framebuffer lifecycle

  /** The GL object names the viewer allocates, as an allocator: names are
      handed out in increasing order starting at 1 (0 means "no object"),
      live framebuffers carry a colour attachment, live textures a size. */
  class Gl {
    var nextName: nat
    var framebuffers: set<nat>
    var textures: map<nat, Size>
    var attachment: map<nat, nat>

    ghost predicate Valid()
      reads this
    {
      0 < nextName &&
      (forall f :: f in framebuffers ==> 0 < f < nextName) &&
      (forall t :: t in textures ==> 0 < t < nextName)
    }

    constructor ()
      ensures Valid() && framebuffers == {} && textures == map[] && attachment == map[]
    {
      nextName := 1;
      framebuffers := {};
      textures := map[];
      attachment := map[];
    }

    /** glGenFramebuffers */
    method GenFramebuffer() returns (f: nat)
      requires Valid()
      modifies this
      ensures Valid()
      ensures f == old(nextName) && nextName == f + 1
      ensures framebuffers == old(framebuffers) + {f}
      ensures textures == old(textures) && attachment == old(attachment)
    {
      f := nextName;
      nextName := nextName + 1;
      framebuffers := framebuffers + {f};
    }

    /** glGenTextures followed by glTexImage2D: a texture with storage of the given size. */
    method GenTexture(size: Size) returns (t: nat)
      requires Valid()
      modifies this
      ensures Valid()
      ensures t == old(nextName) && nextName == t + 1
      ensures textures == old(textures)[t := size]
      ensures framebuffers == old(framebuffers) && attachment == old(attachment)
    {
      t := nextName;
      nextName := nextName + 1;
      textures := textures[t := size];
    }

    /** glFramebufferTexture2D on the colour attachment. */
    method Attach(f: nat, t: nat)
      modifies this`attachment
      ensures attachment == old(attachment)[f := t]
    {
      attachment := attachment[f := t];
    }

    /** glDeleteTextures: names that are not live (0 included) are ignored. */
    method DeleteTexture(t: nat)
      requires Valid()
      modifies this`textures
      ensures Valid()
      ensures textures == old(textures) - {t}
    {
      textures := textures - {t};
    }

    /** glDeleteFramebuffers: names that are not live (0 included) are ignored. */
    method DeleteFramebuffer(f: nat)
      requires Valid()
      modifies this`framebuffers, this`attachment
      ensures Valid()
      ensures framebuffers == old(framebuffers) - {f}
      ensures attachment == old(attachment) - {f}
    {
      framebuffers := framebuffers - {f};
      attachment := attachment - {f};
    }
  }

  /** createFBO: a new framebuffer with a new texture of the given size as
      its colour attachment. `complete` is the driver's completeness verdict;
      when it is false the function returns 0 and the new framebuffer and
      texture stay allocated. */
  method CreateFbo(gl: Gl, width: int, height: int, complete: bool) returns (fbo: nat, outTexture: nat)
    requires gl.Valid()
    modifies gl
    ensures gl.Valid()
    ensures gl.nextName == old(gl.nextName) + 2 && outTexture == old(gl.nextName) + 1
    ensures outTexture !in old(gl.textures) && gl.textures == old(gl.textures)[outTexture := Size(width, height)]
    ensures gl.framebuffers == old(gl.framebuffers) + {old(gl.nextName)}
    ensures old(gl.nextName) !in old(gl.framebuffers)
    ensures gl.attachment == old(gl.attachment)[old(gl.nextName) := outTexture]
    ensures complete ==> fbo == old(gl.nextName) && fbo != 0
    ensures !complete ==> fbo == 0
  {
    var f := gl.GenFramebuffer();
    outTexture := gl.GenTexture(Size(width, height));
    gl.Attach(f, outTexture);
    if !complete {
      return 0, outTexture;
    }
    fbo := f;
  }

  /** resizeFBO: deletes the old texture and framebuffer, then creates both
      anew at the new size; on failure the framebuffer handle becomes 0. */
  method ResizeFbo(gl: Gl, fbo: nat, texture: nat, newWidth: int, newHeight: int, complete: bool)
    returns (newFbo: nat, newTexture: nat)
    requires gl.Valid()
    modifies gl
    ensures gl.Valid()
    ensures newTexture == old(gl.nextName) + 1 && newTexture !in old(gl.textures)
    ensures gl.textures == (old(gl.textures) - {texture})[newTexture := Size(newWidth, newHeight)]
    ensures texture != newTexture ==> texture !in gl.textures
    ensures fbo != old(gl.nextName) ==> fbo !in gl.framebuffers
    ensures gl.framebuffers == old(gl.framebuffers) - {fbo} + {old(gl.nextName)}
    ensures complete ==> newFbo != 0 && newFbo in gl.framebuffers && newFbo in gl.attachment && gl.attachment[newFbo] == newTexture
    ensures !complete ==> newFbo == 0
    ensures complete ==> newFbo == old(gl.nextName)
    ensures gl.nextName == old(gl.nextName) + 2
    ensures gl.attachment == (old(gl.attachment) - {fbo})[old(gl.nextName) := newTexture]
    ensures fbo in old(gl.framebuffers) ==> |gl.framebuffers| == |old(gl.framebuffers)|
  {
    gl.DeleteTexture(texture);
    gl.DeleteFramebuffer(fbo);
    ghost var afterDelete := gl.framebuffers;
    newFbo, newTexture := CreateFbo(gl, newWidth, newHeight, complete);
    if fbo in old(gl.framebuffers) {
      assert old(gl.nextName) !in afterDelete;
      assert |afterDelete| == |old(gl.framebuffers)| - 1;
    }
  }

  /** The resize of both render targets after a resolution change: the full
      target at the base width, then the small one at a tenth of it. The
      handles passed in were issued earlier (or are 0). When both targets are
      complete, each ends up a live framebuffer whose attachment is its own
      texture, at its own size; the second resize does not disturb the first. */
  method ResizeTargets(gl: Gl, fbo: nat, fboTexture: nat, fboSmall: nat, fboSmallTexture: nat,
                       baseWidth: int, videoAspectRatio: real, completeFull: bool, completeSmall: bool)
    returns (fbo': nat, fboTexture': nat, fboSmall': nat, fboSmallTexture': nat)
    requires gl.Valid()
    requires fboSmall < gl.nextName && fboSmallTexture < gl.nextName
    modifies gl
    ensures gl.Valid()
    ensures gl.nextName == old(gl.nextName) + 4
    ensures !completeFull ==> fbo' == 0
    ensures !completeSmall ==> fboSmall' == 0
    ensures fboTexture' in gl.textures && gl.textures[fboTexture'] == FullSize(baseWidth, videoAspectRatio)
    ensures fboSmallTexture' in gl.textures && gl.textures[fboSmallTexture'] == SmallSize(baseWidth, videoAspectRatio)
    ensures completeFull ==> fbo' in gl.framebuffers && fbo' in gl.attachment && gl.attachment[fbo'] == fboTexture'
    ensures completeSmall ==> fboSmall' in gl.framebuffers && fboSmall' in gl.attachment
                              && gl.attachment[fboSmall'] == fboSmallTexture'
    ensures completeFull && completeSmall ==> fbo' != fboSmall' && fboTexture' != fboSmallTexture'
  {
    var full := FullSize(baseWidth, videoAspectRatio);
    var small := SmallSize(baseWidth, videoAspectRatio);
    fbo', fboTexture' := ResizeFbo(gl, fbo, fboTexture, full.width, full.height, completeFull);
    fboSmall', fboSmallTexture' := ResizeFbo(gl, fboSmall, fboSmallTexture, small.width, small.height, completeSmall);
  }
}
