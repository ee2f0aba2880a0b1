# Alpha-channel combiner

A model of the texture utility of a Blender game-tools add-on that merges a
separate grayscale texture into the alpha channel of a main texture before
export to a game engine.

- `ValidateAlphaImage` takes two optional images and runs six checks in a
  fixed order. Both images must be present. Both must have pixel data. Width
  and height must match. It stops at the first failure and returns
  `(false, message)`, or `(true, "")` when every check passes.
- `CombineAlphaChannel` validates first. It then reads both images' flat,
  row-major RGBA buffers (`width * height * 4` values each) into freshly
  allocated buffers. For every pixel `i` it copies the alpha image's red value
  (slot `i*4+0`) into the main buffer's alpha slot (slot `i*4+3`). It writes
  the buffer back into the main image and, when asked, removes the alpha image
  from the host's image registry.

Images are a class (`AlphaCombiner.Image`): name, size and loaded state are
constants, and the pixel storage is a field that the host's bulk write
replaces. The registry is a class holding the set of live images. Channel
values are `real`, because they are only ever copied. The host's bulk read
(`foreach_get`) fails when the buffer it is given has a different length from
the stored one. That failure is the exception path the model covers, and it
leaves the main image untouched.

`CombineAlphaChannel` takes non-null images that are still live in the registry. The source formats a progress
line from both images' names and sizes before it validates
(alpha_combiner.py:62), so a missing image raises there instead of producing
the validator's "is None" result. The "is None" branches of the validator are
reachable only when the validator is called on its own.

Both buffers are copied before the loop, so passing the same image as main and
alpha is well defined. Each pixel's alpha becomes its own red value. The
contracts, stated over `old(alpha.pixels)`, cover that case.

## Model

| member | source | states |
|---|---|---|
| `Decimal.NatToString` | alpha_combiner.py:35-36 | a size is rendered as a non-empty string of decimal digits with no leading zero; zero is rendered as `0` |
| `Decimal.NatToStringRoundTrip` | alpha_combiner.py:35-36 | reading the rendered digits back gives the size: mismatch messages state the sizes exactly |
| `Decimal.NatToStringInjective` | alpha_combiner.py:41-42 | different sizes are rendered as different strings |
| `AlphaCombiner.ValidateAlphaImage` | alpha_combiner.py:10-45 | an absent main image gives `(false, "Main image is None")` whatever the alpha image; a present main image and an absent alpha image give `(false, "Alpha image is None")`; the result is true exactly when both are present, both have data, and widths and heights are equal; the message is empty exactly on success |
| `AlphaCombiner.ValidateReportsFirstFailedCheck` | alpha_combiner.py:27-43 | with both images present, the reported failure is the first failing check in the order main data, alpha data, width, height; the height check is reached only when the widths agree |
| `AlphaCombiner.FailureMessagesIdentifyCheck` | alpha_combiner.py:21-43 | failure messages of different checks differ, and no data or size message equals a missing-image message, so the message identifies which check failed |
| `AlphaCombiner.AlphaFromRed` | alpha_combiner.py:86-92 | the buffer keeps its length; every pixel keeps its red, green and blue and takes as alpha the red of the same pixel of the alpha buffer; every slot that is not an alpha slot keeps its value |
| `AlphaCombiner.AlphaFromRedIdempotent` | alpha_combiner.py:86-92 | combining a second time with the same alpha buffer leaves the result unchanged |
| `AlphaCombiner.AlphaFromRedReadsOnlyRed` | alpha_combiner.py:80-92 | only the alpha buffer's red channel is read: alpha buffers that agree on red give the same result |
| `AlphaCombiner.CombinedBuffer` | alpha_combiner.py:72-92 | succeeds exactly when both stored buffers have length `width*height*4` of the main image, and then returns the main buffer with every alpha slot replaced by the alpha image's red value of that pixel; otherwise returns the host's size error |
| `AlphaCombiner.Image.ReadPixels` | alpha_combiner.py:77-82 | the bulk read succeeds exactly when the buffer has the stored buffer's length, and then holds the stored values; a failed read leaves the buffer untouched |
| `AlphaCombiner.Image.WritePixels` | alpha_combiner.py:95 | the bulk write replaces the stored buffer with the given one |
| `AlphaCombiner.ImageRegistry.Remove` | alpha_combiner.py:103-104 | the removed image is no longer live; every other image stays |
| `AlphaCombiner.ImageRegistry.NameOf` | alpha_combiner.py:105 | reading the name of an image raises exactly when the image is no longer live |
| `AlphaCombiner.CombineAlphaChannel` | alpha_combiner.py:48-107 | both images must still be live in the registry (line 62 reads them before validating); cleanup defaults to off; a failed validation returns the validator's result unchanged and modifies neither the pixels nor the registry; a buffer of the wrong length gives `(false, "Error combining alpha channels: ...")` with nothing modified; otherwise the result is `(true, "Successfully combined alpha channel from '<alpha>' into '<main>'")`, the main pixels become `AlphaFromRed` of the old buffers, and the alpha image leaves the registry exactly when cleanup was asked for; the alpha image's pixels are only read |
| `AlphaCombiner.CombineAlphaChannelAsWritten` | alpha_combiner.py:100-113 | as written, a successful combination with cleanup still writes the pixels and removes the alpha image, but then reports `(false, "Error combining alpha channels: StructRNA of type Image has been removed")`; a failed validation or a buffer of the wrong length behaves as in `CombineAlphaChannel`, and the alpha image's pixels are only read |

## Findings

| source | as written | input that shows it | evidently intended | confidence | as-written member | corrected member |
|---|---|---|---|---|---|---|
| alpha_combiner.py:103-107 | after `bpy.data.images.remove(alpha_image)`, line 105 reads `alpha_image.name` for a progress line; Blender raises a `ReferenceError` on any attribute of a removed image, and the `except Exception` at line 109 turns it into a failure result | two compatible, loaded images of equal size with `cleanup_alpha=True`: the pixels are written and the alpha image is removed, yet the call returns `(False, "Error combining alpha channels: StructRNA of type Image has been removed")` | report `(True, "Successfully combined alpha channel from '<alpha>' into '<main>'")`, using the name read before the removal | not executed; depends on the host raising on removed images, as it does for every removed data-block | `AlphaCombiner.CombineAlphaChannelAsWritten` | `AlphaCombiner.CombineAlphaChannel` |

## Left out

- The progress and error lines printed to the console and the traceback (alpha_combiner.py:62, 67, 100, 105, 110-112) are output only. The one effect they have is modelled: line 105 reads a removed image's name.
- `CombineAlphaChannel` and `CombineAlphaChannelAsWritten` take non-null images that the registry still holds. In the source, line 62 reads both images' names and sizes outside the `try`: a missing image, or one already removed from the registry, raises there and the exception reaches the caller.
- `main_image.update()` (alpha_combiner.py:98) only marks the image as changed so that the host refreshes its caches. It has no modelled state.
- `BufferSizeDetail` stands in for the text of the host's exception when a bulk read gets a buffer of the wrong length. The host's exact wording is not part of this model.
- Other exceptions the host may raise inside the `try` (alpha_combiner.py:109-113) are not modelled. These are storage faults that cannot be seen from the add-on, and the source makes no claim about rollback after them.
- Floating-point semantics: channel values are `real` and are only copied, never computed on.
- ui/panels_3d_view.py is not part of this model. It holds panel layout, poll predicates and registration calls, with no algorithmic content.
