/** Combining a separate grayscale texture into the alpha channel of a main
    texture: the validator that decides whether two images can be combined,
    and the combination itself, which copies the red channel of the alpha
    texture into the alpha channel of the main texture, pixel by pixel, and
    can remove the alpha texture from the host's image registry afterwards. */
module AlphaCombiner {
  import Decimal

  // Offsets of the channels inside one pixel of a flat, row-major RGBA buffer.
  const R := 0
  const G := 1
  const B := 2
  const A := 3
  const ChannelsPerPixel := 4

  /** One pixel of an RGBA buffer. Channel values are copied, never computed on. */
  datatype Rgba = Rgba(r: real, g: real, b: real, a: real)

  /** The outcome of a host operation that may raise; `detail` is the text of the exception. */
  datatype Result<T> = Ok(value: T) | Err(detail: string)

  /** An image owned by the host. Its name, size and loaded state are fixed for the
      duration of a combination; its pixel storage is what the combination overwrites. */
  class Image {
    const name: string
    const width: nat
    const height: nat
    const hasData: bool
    var pixels: seq<real>

    constructor (name: string, width: nat, height: nat, hasData: bool, pixels: seq<real>)
      ensures this.name == name && this.width == width && this.height == height
      ensures this.hasData == hasData && this.pixels == pixels
    {
      this.name := name;
      this.width := width;
      this.height := height;
      this.hasData := hasData;
      this.pixels := pixels;
    }

    function PixelCount(): nat {
      width * height
    }

    /** The host's bulk read: copies the stored buffer into `buf`, and raises
        when `buf` does not have exactly the stored buffer's length. */
    method ReadPixels(buf: array<real>) returns (ok: bool)
      modifies buf
      ensures ok <==> buf.Length == |pixels|
      ensures ok ==> buf[..] == pixels
      ensures !ok ==> buf[..] == old(buf[..])
    {
      ok := buf.Length == |pixels|;
      if ok {
        forall k | 0 <= k < buf.Length {
          buf[k] := pixels[k];
        }
      }
    }

    /** The host's bulk write of a buffer of the stored buffer's length. */
    method WritePixels(values: seq<real>)
      requires |values| == |pixels|
      modifies this
      ensures pixels == values
    {
      pixels := values;
    }
  }

  /** The text of the exception the host raises when an attribute of an image
      it has already removed is read. */
  const RemovedImageDetail := "StructRNA of type Image has been removed"

  /** The host's table of live images. */
  class ImageRegistry {
    var images: set<Image>

    constructor (images: set<Image>)
      ensures this.images == images
    {
      this.images := images;
    }

    /** Removing an image frees it: it is no longer live. */
    method Remove(image: Image)
      modifies this
      ensures images == old(images) - {image}
    {
      images := images - {image};
    }

    /** Reading an image's name: the host raises once the image has been removed. */
    function NameOf(image: Image): (r: Result<string>)
      reads this
      ensures r.Ok? <==> image in images
      ensures r.Ok? ==> r.value == image.name
      ensures r.Err? ==> r.detail == RemovedImageDetail
    {
      if image in images then Ok(image.name) else Err(RemovedImageDetail)
    }
  }

  // ---------------------------------------------------------------------------
  // Validation

  const MainMissingMessage := "Main image is None"
  const AlphaMissingMessage := "Alpha image is None"

  function MainNoDataMessage(mainName: string): string {
    "Main image '" + mainName + "' has no pixel data"
  }

  function AlphaNoDataMessage(alphaName: string): string {
    "Alpha image '" + alphaName + "' has no pixel data"
  }

  function WidthMismatchMessage(mainName: string, mainWidth: nat, alphaName: string, alphaWidth: nat): string {
    "Width mismatch: Main image '" + mainName + "' has width " + Decimal.NatToString(mainWidth)
    + ", but alpha image '" + alphaName + "' has width " + Decimal.NatToString(alphaWidth)
  }

  function HeightMismatchMessage(mainName: string, mainHeight: nat, alphaName: string, alphaHeight: nat): string {
    "Height mismatch: Main image '" + mainName + "' has height " + Decimal.NatToString(mainHeight)
    + ", but alpha image '" + alphaName + "' has height " + Decimal.NatToString(alphaHeight)
  }

  /** Two images can be combined: both present, both loaded, and of the same size. */
  predicate Compatible(main: Image?, alpha: Image?) {
    && main != null && alpha != null
    && main.hasData && alpha.hasData
    && main.width == alpha.width && main.height == alpha.height
  }

  /** Checks that two optional images can be combined, stopping at the first
      check that fails and describing it. The empty message means success. */
  function ValidateAlphaImage(main: Image?, alpha: Image?): (r: (bool, string))
    ensures main == null ==> r == (false, MainMissingMessage)
    ensures main != null && alpha == null ==> r == (false, AlphaMissingMessage)
    ensures r.0 <==> Compatible(main, alpha)
    ensures r.0 <==> r.1 == ""
  {
    if main == null then (false, MainMissingMessage)
    else if alpha == null then (false, AlphaMissingMessage)
    else if !main.hasData then (false, MainNoDataMessage(main.name))
    else if !alpha.hasData then (false, AlphaNoDataMessage(alpha.name))
    else if main.width != alpha.width then
      (false, WidthMismatchMessage(main.name, main.width, alpha.name, alpha.width))
    else if main.height != alpha.height then
      (false, HeightMismatchMessage(main.name, main.height, alpha.name, alpha.height))
    else (true, "")
  }

  /** The checks made once both images are present. */
  datatype Check = MainHasData | AlphaHasData | SameWidth | SameHeight

  /** The order in which the validator makes them. */
  const DataChecks: seq<Check> := [MainHasData, AlphaHasData, SameWidth, SameHeight]

  predicate Passes(c: Check, main: Image, alpha: Image) {
    match c
    case MainHasData => main.hasData
    case AlphaHasData => alpha.hasData
    case SameWidth => main.width == alpha.width
    case SameHeight => main.height == alpha.height
  }

  function FailureMessage(c: Check, main: Image, alpha: Image): string {
    match c
    case MainHasData => MainNoDataMessage(main.name)
    case AlphaHasData => AlphaNoDataMessage(alpha.name)
    case SameWidth => WidthMismatchMessage(main.name, main.width, alpha.name, alpha.width)
    case SameHeight => HeightMismatchMessage(main.name, main.height, alpha.name, alpha.height)
  }

  /** With both images present, the validator reports the first check, in
      `DataChecks` order, that fails: the main image's data before the alpha
      image's, and the width before the height. */
  lemma ValidateReportsFirstFailedCheck(main: Image, alpha: Image, k: nat)
    requires k < |DataChecks|
    requires !Passes(DataChecks[k], main, alpha)
    requires forall j :: 0 <= j < k ==> Passes(DataChecks[j], main, alpha)
    ensures ValidateAlphaImage(main, alpha) == (false, FailureMessage(DataChecks[k], main, alpha))
  {
    if k > 0 {
      assert Passes(DataChecks[0], main, alpha);
    }
    if k > 1 {
      assert Passes(DataChecks[1], main, alpha);
    }
    if k > 2 {
      assert Passes(DataChecks[2], main, alpha);
    }
  }

  /** Every failure message tells which check failed: messages of different
      checks differ whatever the images, and none is a missing-image message. */
  lemma FailureMessagesIdentifyCheck(c1: Check, c2: Check, m1: Image, a1: Image, m2: Image, a2: Image)
    ensures c1 != c2 ==> FailureMessage(c1, m1, a1) != FailureMessage(c2, m2, a2)
    ensures FailureMessage(c1, m1, a1) != MainMissingMessage
    ensures FailureMessage(c1, m1, a1) != AlphaMissingMessage
  {
    var s1, s2 := FailureMessage(c1, m1, a1), FailureMessage(c2, m2, a2);
    assert s1[0] == match c1 case MainHasData => 'M' case AlphaHasData => 'A' case SameWidth => 'W' case SameHeight => 'H';
    assert s2[0] == match c2 case MainHasData => 'M' case AlphaHasData => 'A' case SameWidth => 'W' case SameHeight => 'H';
    if c1 == MainHasData {
      assert s1[11] == '\'' && MainMissingMessage[11] == 'i';
    }
    if c1 == AlphaHasData {
      assert s1[12] == '\'' && AlphaMissingMessage[12] == 'i';
    }
  }

  // ---------------------------------------------------------------------------
  // The per-pixel copy

  /** Pixel `i` of a flat RGBA buffer. */
  function PixelAt(buf: seq<real>, i: nat): Rgba
    requires i * ChannelsPerPixel + A < |buf|
  {
    var base := i * ChannelsPerPixel;
    Rgba(buf[base + R], buf[base + G], buf[base + B], buf[base + A])
  }

  /** The main buffer after the copy: the alpha slot of every pixel holds the
      red value of the same pixel of the alpha buffer; every other slot is kept. */
  function AlphaFromRed(main: seq<real>, alpha: seq<real>, pixelCount: nat): (r: seq<real>)
    requires |main| == pixelCount * ChannelsPerPixel && |alpha| == |main|
    ensures |r| == |main|
    ensures forall i :: 0 <= i < pixelCount ==>
      PixelAt(r, i) == PixelAt(main, i).(a := PixelAt(alpha, i).r)
    ensures forall k :: 0 <= k < |r| && k % ChannelsPerPixel != A ==> r[k] == main[k]
  {
    seq(|main|, k requires 0 <= k < |main| =>
      if k % ChannelsPerPixel == A then alpha[k - A + R] else main[k])
  }

  /** Combining a second time with the same alpha buffer changes nothing. */
  lemma AlphaFromRedIdempotent(main: seq<real>, alpha: seq<real>, pixelCount: nat)
    requires |main| == pixelCount * ChannelsPerPixel && |alpha| == |main|
    ensures AlphaFromRed(AlphaFromRed(main, alpha, pixelCount), alpha, pixelCount)
         == AlphaFromRed(main, alpha, pixelCount)
  {
  }

  /** Only the red channel of the alpha buffer is read: alpha buffers that agree
      on red give the same result, whatever their green, blue and alpha. */
  lemma AlphaFromRedReadsOnlyRed(main: seq<real>, alpha1: seq<real>, alpha2: seq<real>, pixelCount: nat)
    requires |main| == pixelCount * ChannelsPerPixel && |alpha1| == |main| && |alpha2| == |main|
    requires forall i :: 0 <= i < pixelCount ==> PixelAt(alpha1, i).r == PixelAt(alpha2, i).r
    ensures AlphaFromRed(main, alpha1, pixelCount) == AlphaFromRed(main, alpha2, pixelCount)
  {
    var r1 := AlphaFromRed(main, alpha1, pixelCount);
    var r2 := AlphaFromRed(main, alpha2, pixelCount);
    forall k | 0 <= k < |main|
      ensures r1[k] == r2[k]
    {
      var i := k / ChannelsPerPixel;
      assert k == i * ChannelsPerPixel + k % ChannelsPerPixel;
      if k % ChannelsPerPixel == A {
        assert PixelAt(r1, i).a == PixelAt(alpha1, i).r;
        assert PixelAt(r2, i).a == PixelAt(alpha2, i).r;
      }
    }
  }

  /** Both stored buffers have the length the main image's size calls for. */
  predicate BuffersFit(main: Image, alpha: Image)
    reads main, alpha
  {
    |main.pixels| == main.PixelCount() * ChannelsPerPixel && |alpha.pixels| == |main.pixels|
  }

  /** The detail of the exception the host raises when a bulk read is given a
      buffer of the wrong length. */
  const BufferSizeDetail := "pixel buffer size mismatch"

  /** Reads both stored buffers into freshly allocated buffers of the main
      image's length and copies, pixel by pixel, the alpha image's red value
      into the main buffer's alpha slot. Returns the new main buffer, or the
      host's error when a stored buffer has another length. */
  method CombinedBuffer(main: Image, alpha: Image) returns (r: Result<seq<real>>)
    ensures r.Ok? <==> BuffersFit(main, alpha)
    ensures r.Ok? ==> r.value == AlphaFromRed(main.pixels, alpha.pixels, main.PixelCount())
    ensures r.Err? ==> r.detail == BufferSizeDetail
  {
    var pixelCount := main.width * main.height;
    var totalValues := pixelCount * ChannelsPerPixel;
    var mainPixels := new real[totalValues](_ => 0.0);
    var ok := main.ReadPixels(mainPixels);
    if !ok {
      return Err(BufferSizeDetail);
    }
    var alphaPixels := new real[totalValues](_ => 0.0);
    ok := alpha.ReadPixels(alphaPixels);
    if !ok {
      return Err(BufferSizeDetail);
    }
    for i := 0 to pixelCount
      invariant alphaPixels[..] == alpha.pixels
      invariant forall k :: 0 <= k < totalValues ==>
        mainPixels[k] == if k % ChannelsPerPixel == A && k / ChannelsPerPixel < i
                         then alpha.pixels[k - A + R] else main.pixels[k]
    {
      mainPixels[i * ChannelsPerPixel + A] := alphaPixels[i * ChannelsPerPixel + R];
    }
    return Ok(mainPixels[..]);
  }

  // ---------------------------------------------------------------------------
  // The combination

  const CombineErrorPrefix := "Error combining alpha channels: "

  function SuccessMessage(alphaName: string, mainName: string): string {
    "Successfully combined alpha channel from '" + alphaName + "' into '" + mainName + "'"
  }

  /** Validates, copies the alpha image's red channel into the main image's
      alpha channel, writes the buffer back and, when asked, removes the alpha
      image from the registry. A failed validation or read changes nothing.
      Both images must be live: the progress line written before validation
      reads their names and sizes, and the host raises for a removed image. */
  method CombineAlphaChannel(main: Image, alpha: Image, registry: ImageRegistry, cleanupAlpha: bool := false)
    returns (ok: bool, message: string)
    requires main in registry.images && alpha in registry.images
    modifies main, registry
    ensures !Compatible(main, alpha) ==>
      && (ok, message) == ValidateAlphaImage(main, alpha)
      && main.pixels == old(main.pixels) && registry.images == old(registry.images)
    ensures Compatible(main, alpha) && !old(BuffersFit(main, alpha)) ==>
      && !ok && message == CombineErrorPrefix + BufferSizeDetail
      && main.pixels == old(main.pixels) && registry.images == old(registry.images)
    ensures Compatible(main, alpha) && old(BuffersFit(main, alpha)) ==>
      && ok && message == SuccessMessage(alpha.name, main.name)
      && main.pixels == AlphaFromRed(old(main.pixels), old(alpha.pixels), main.PixelCount())
      && registry.images == (if cleanupAlpha then old(registry.images) - {alpha} else old(registry.images))
    ensures alpha != main ==> alpha.pixels == old(alpha.pixels)
  {
    var (valid, validationMessage) := ValidateAlphaImage(main, alpha);
    if !valid {
      return false, validationMessage;
    }
    var combined := CombinedBuffer(main, alpha);
    if combined.Err? {
      return false, CombineErrorPrefix + combined.detail;
    }
    main.WritePixels(combined.value);
    if cleanupAlpha {
      registry.Remove(alpha);
    }
    return true, SuccessMessage(alpha.name, main.name);
  }

  /** The combination as the source writes it: after removing the alpha image it
      reads the removed image's name for a progress line, the host raises, and
      the generic handler turns the completed combination into a failure. */
  method CombineAlphaChannelAsWritten(main: Image, alpha: Image, registry: ImageRegistry, cleanupAlpha: bool := false)
    returns (ok: bool, message: string)
    requires main in registry.images && alpha in registry.images
    modifies main, registry
    ensures !Compatible(main, alpha) ==>
      && (ok, message) == ValidateAlphaImage(main, alpha)
      && main.pixels == old(main.pixels) && registry.images == old(registry.images)
    ensures Compatible(main, alpha) && old(BuffersFit(main, alpha)) ==>
      && main.pixels == AlphaFromRed(old(main.pixels), old(alpha.pixels), main.PixelCount())
      && registry.images == (if cleanupAlpha then old(registry.images) - {alpha} else old(registry.images))
      && ok == !cleanupAlpha
      && message == (if cleanupAlpha then CombineErrorPrefix + RemovedImageDetail
                     else SuccessMessage(alpha.name, main.name))
    ensures Compatible(main, alpha) && !old(BuffersFit(main, alpha)) ==>
      && !ok && message == CombineErrorPrefix + BufferSizeDetail
      && main.pixels == old(main.pixels) && registry.images == old(registry.images)
    ensures alpha != main ==> alpha.pixels == old(alpha.pixels)
  {
    var (valid, validationMessage) := ValidateAlphaImage(main, alpha);
    if !valid {
      return false, validationMessage;
    }
    var combined := CombinedBuffer(main, alpha);
    if combined.Err? {
      return false, CombineErrorPrefix + combined.detail;
    }
    main.WritePixels(combined.value);
    if cleanupAlpha {
      registry.Remove(alpha);
      var removedName := registry.NameOf(alpha);
      if removedName.Err? {
        return false, CombineErrorPrefix + removedName.detail;
      }
    }
    return true, SuccessMessage(alpha.name, main.name);
  }
}
