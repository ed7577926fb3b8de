# Image editor and AI image service, modelled in Dafny

This project models two parts of an Angular image editor.

**The drawing engine of `ImageEditorComponent`** has four parts:
- **Gestures.** Mouse and touch events drive freehand strokes and previewed shapes.
- **Snapshots.** A rectangle or circle is previewed over a saved copy of the canvas. It is committed on release.
- **Text overlay.** An input is placed over the canvas, and its trimmed text is painted onto the canvas on commit.
- **Colour pipeline.** Brightness, contrast and saturation are baked into the RGBA bytes in place, and `getFilterStyle` supplies the CSS preview string.

**The bookkeeping of `AIImageService`** covers:
- the generation history: prepend with a cap of 50, toggle favourite, delete, favourites, clear;
- the request body built for each model back end;
- the image read out of each back end's response;
- the message shown for a failed request;
- the retry rule;
- the simulated progress value.

Both parts have the same layout:
- **Pure transitions.** A datatype holds the object's whole state: `EditorMachine.EditorModel` and `ServiceMachine.ServiceModel`. Functions on it give each handler's transition. The properties are lemmas about those functions: whole gestures, the snapshot round trip, and invariants kept.
- **Classes.** `ImageEditor.ImageEditorComponent` and `AIService.AIImageService` keep the source's own fields and update them in place. Each method's postcondition says the new state is the pure transition of the old state. The editor's event handlers and public methods also require and keep `EditorMachine.Inv`. It says the buffer and the snapshot hold whole pixels of bytes, and that a snapshot exists exactly while a shape is previewed. The private helpers `saveCanvasState` and `finishShapeDrawing` break it for a moment, inside a handler.
- **Pixel buffer.** The canvas is an `array<int>` of RGBA bytes. The filter is a `while` loop over it, four bytes at a time. The loop is proved against `ColorFilter.MapPixels`.

What the platform supplies enters as parameters:
- **Rasteriser.** A `Canvas.Rasterizer` is any function from a buffer and a drawing command to a buffer that keeps the length and maps a buffer of bytes to a buffer of bytes, since a `Uint8ClampedArray` holds only bytes. It paints the lines, rectangles, arcs and glyphs. Every proof holds for every such rasteriser.
- **Browser inputs.** These are canvas-local event coordinates, the canvas's offset inside its wrapper, the text input's value and the measured text ascent.
- **Service inputs.** These are the decoded HTTP response or error, one call per timer firing, the id of a new entry, and the history read back from storage.

Supporting modules:
- `Geometry`: the shape geometry and the overlay transform.
- `EditorStyle`: the tool state, property changes and style getters.
- `JsString`: `String.prototype.trim` (section 22.1.3.32 of ECMA-262).
- `Decimal`: printing and reading back numbers.
- `History`: the history list.
- `AIRequests`: request bodies, responses, errors, retries and progress as JSON-modelled values.

## Model

| member | source | states |
|---|---|---|
| EditorStyle.InitialState | src/app/components/image-editor/image-editor.component.ts:77-99 | The editor starts with the brush tool, a black 5 px brush, font size 16, weight 60, slant 0, and all three filters at 100. |
| EditorMachine.Initial | src/app/components/image-editor/image-editor.component.ts:31-50 | A new component holds the given context flag and the initial tool state, a buffer of the requested length (the constructor asks for `width*height*4`), no open stroke or shape gesture, no snapshot, no text entry, and all three filter percentages at 100. With a context, every byte of the canvas is 255. The state satisfies the editor invariant. |
| ImageEditor.ImageEditorComponent.constructor | src/app/components/image-editor/image-editor.component.ts:101-118 | Construction followed by `initializeCanvas` allocates `width*height*4` bytes. The canvas is white when `getContext` succeeds. |
| Canvas.WhiteBuffer | src/app/components/image-editor/image-editor.component.ts:664-670 | The cleared canvas has the same size, with every byte 255. |
| EditorMachine.ClearCanvas | src/app/components/image-editor/image-editor.component.ts:664-670 | `clearCanvas` paints the canvas white and changes nothing else. Without a context it does nothing. |
| ImageEditor.ImageEditorComponent.ClearCanvas | src/app/components/image-editor/image-editor.component.ts:664-670 | The in-place fill leaves the component in the `EditorMachine.ClearCanvas` state. |
| EditorMachine.SaveCanvasState | src/app/components/image-editor/image-editor.component.ts:335-339 | With a context, the saved copy becomes the whole current buffer, replacing any earlier copy. |
| EditorMachine.RestoreCanvasState | src/app/components/image-editor/image-editor.component.ts:342-345 | The buffer becomes exactly the saved copy. Without a copy or a context, nothing happens. |
| EditorMachine.SnapshotRoundTrip | src/app/components/image-editor/image-editor.component.ts:335-345 | Save, then any change to the buffer, then restore gives back the buffer as it was when saved. |
| ImageEditor.ImageEditorComponent.SaveCanvasState | src/app/components/image-editor/image-editor.component.ts:335-339 | Copies the array into the snapshot field. |
| ImageEditor.ImageEditorComponent.RestoreCanvasState | src/app/components/image-editor/image-editor.component.ts:342-345 | `putImageData` writes the whole snapshot back into the array. |
| ImageEditor.SnapshotScenario | src/app/components/image-editor/image-editor.component.ts:335-345 | On the class, save, then a stroke and any other drawing call, then restore leaves the array equal to its contents before the save. |
| Geometry.Extent | src/app/components/image-editor/image-editor.component.ts:370-371 | `Math.abs(d) \|\| 1` is positive. It equals `\|d\|` for a non-zero drag and 1 for a zero drag. |
| Geometry.RectFromDrag | src/app/components/image-editor/image-editor.component.ts:368-376 | The rectangle's corner is the smaller coordinate on each axis, and its size is the axis `Extent`. |
| Geometry.RectCoversDrag | src/app/components/image-editor/image-editor.component.ts:412-420 | The rectangle contains both the start point and the end point of the drag. |
| Geometry.RectSymmetric | src/app/components/image-editor/image-editor.component.ts:368-376 | Dragging from A to B gives the same rectangle as dragging from B to A. |
| Geometry.CircleFromDrag | src/app/components/image-editor/image-editor.component.ts:377-387 | The centre is the midpoint of the drag. The radius is the largest of half of each axis extent and 1. |
| Geometry.CircleCoversDrag | src/app/components/image-editor/image-editor.component.ts:421-431 | The radius is at least 1 and at least half of each axis extent, so both drag ends lie inside the circle's bounding box. |
| Canvas.ShapeCommands | src/app/components/image-editor/image-editor.component.ts:358-388 | A rectangle is a fill then a stroke of `RectFromDrag`. A circle is one arc of `CircleFromDrag`. Colours and width fall back to the brush's. Any other tool paints nothing. |
| EditorStyle.ShapeStrokeColorOf | src/app/components/image-editor/image-editor.component.ts:359 | `shapeStrokeColor \|\| brushColor`: the shape stroke colour when it is set and non-empty, otherwise the brush colour. So it is empty only when the brush colour is empty. |
| EditorStyle.ShapeFillColorOf | src/app/components/image-editor/image-editor.component.ts:360 | `shapeFillColor \|\| brushColor`: the shape fill colour when it is set and non-empty, otherwise the brush colour. So it is empty only when the brush colour is empty. |
| EditorStyle.ShapeStrokeWidthOf | src/app/components/image-editor/image-editor.component.ts:361 | `shapeStrokeWidth \|\| brushWidth`: the shape stroke width when it is set and non-zero, otherwise the brush width. So it is 0 only when the brush width is 0. |
| EditorMachine.DrawShapePreview | src/app/components/image-editor/image-editor.component.ts:348-389 | The preview frame is the snapshot with the shape for the drag from the start point painted on it. It does not depend on the buffer before the call. Without a snapshot or a context, nothing happens. |
| ImageEditor.ImageEditorComponent.DrawShapePreview | src/app/components/image-editor/image-editor.component.ts:348-389 | Restores the array in place, then rasterises the shape commands. Leaves the `EditorMachine.DrawShapePreview` state. |
| EditorMachine.FinishShapeDrawing | src/app/components/image-editor/image-editor.component.ts:392-435 | Paints the shape for the drag from the start point to the last point over the snapshot, and drops the snapshot. Without a snapshot, nothing happens. |
| ImageEditor.ImageEditorComponent.FinishShapeDrawing | src/app/components/image-editor/image-editor.component.ts:392-435 | Leaves the `EditorMachine.FinishShapeDrawing` state. |
| EditorMachine.StartDrawing | src/app/components/image-editor/image-editor.component.ts:183-212 | A press does one of four things. Without a context, nothing happens. The text tool opens the overlay. A shape tool saves a snapshot, raises `isShapeDrawing`, and sets both start and last to the point. Any other tool raises `isDrawing` with last at the point. The invariant is kept. |
| ImageEditor.ImageEditorComponent.StartDrawing | src/app/components/image-editor/image-editor.component.ts:183-212 | The mouse path leaves the `EditorMachine.StartDrawing` state. |
| ImageEditor.ImageEditorComponent.HandleTouchStart | src/app/components/image-editor/image-editor.component.ts:214-245 | The touch path leaves exactly the same state as the mouse path. |
| Canvas.SegmentCommand | src/app/components/image-editor/image-editor.component.ts:297-319 | A segment goes from the last point to the new point, in the brush width. Its colour is `#ffffff` for the eraser and the brush colour otherwise. |
| EditorMachine.DrawOnCanvas | src/app/components/image-editor/image-editor.component.ts:297-319 | Paints exactly one segment and changes nothing else. |
| ImageEditor.ImageEditorComponent.DrawOnCanvas | src/app/components/image-editor/image-editor.component.ts:297-319 | Rasterises that segment into the array. |
| EditorMachine.Draw | src/app/components/image-editor/image-editor.component.ts:273-295 | A move while shape-drawing with a shape tool sets last to the point and redraws the preview. While stroking, it paints the segment from last and then moves last. Otherwise it does nothing. The invariant is kept. |
| ImageEditor.ImageEditorComponent.Draw | src/app/components/image-editor/image-editor.component.ts:273-295 | The mouse path leaves the `EditorMachine.Draw` state. |
| ImageEditor.ImageEditorComponent.HandleTouchMove | src/app/components/image-editor/image-editor.component.ts:247-271 | The touch path leaves the same state as `draw`. |
| EditorMachine.StopDrawing | src/app/components/image-editor/image-editor.component.ts:321-332 | A release while shape-drawing with a shape tool commits the shape and clears `isShapeDrawing`. Otherwise it clears only `isDrawing`. The invariant is kept. |
| ImageEditor.ImageEditorComponent.StopDrawing | src/app/components/image-editor/image-editor.component.ts:321-332 | Leaves the `EditorMachine.StopDrawing` state. |
| Canvas.Strokes | src/app/components/image-editor/image-editor.component.ts:273-319 | A stroke through n points is n-1 segments, each joining consecutive points. |
| EditorMachine.PreviewMoves | src/app/components/image-editor/image-editor.component.ts:273-295 | Any number of moves during a preview keeps the snapshot, the start point and the tool. The last move becomes the last point. The buffer holds exactly one shape over the snapshot, so previews never pile up. |
| EditorMachine.ShapeGesture | src/app/components/image-editor/image-editor.component.ts:183-212 | A press, any moves, then a release with a shape tool leaves the old buffer with exactly the one shape from the press point to the last point. No snapshot is left. |
| EditorMachine.StrokeMoves | src/app/components/image-editor/image-editor.component.ts:273-295 | Moves while stroking paint one segment per move, each from the previous point. Last ends at the final point. |
| EditorMachine.StrokeGesture | src/app/components/image-editor/image-editor.component.ts:321-332 | A whole stroke paints exactly the segments joining the press point and the moves, in order, and ends the stroke. |
| Geometry.ToWrapper | src/app/components/image-editor/image-editor.component.ts:454-458 | The overlay point is the canvas point moved by the canvas's offset in its wrapper. |
| Geometry.ToCanvas | src/app/components/image-editor/image-editor.component.ts:494-498 | The commit point is the overlay point moved back by the offset. |
| Geometry.OverlayRoundTrip | src/app/components/image-editor/image-editor.component.ts:454-498 | With an unchanged offset, the two transforms are inverse to each other in both orders. |
| Geometry.OverlayDrift | src/app/components/image-editor/image-editor.component.ts:454-498 | If the wrapper offset changes by `(mx, my)` between entry and commit, the text lands shifted by `(-mx, -my)`. |
| EditorMachine.StartTextInput | src/app/components/image-editor/image-editor.component.ts:438-477 | Opens the overlay with empty text at a point that maps back to the clicked point, and changes nothing else. Without a context or a wrapper, nothing happens. |
| ImageEditor.ImageEditorComponent.StartTextInput | src/app/components/image-editor/image-editor.component.ts:438-477 | Leaves the `EditorMachine.StartTextInput` state. |
| JsString.Trim | src/app/components/image-editor/image-editor.component.ts:483 | The trimmed text is no longer than the input. |
| JsString.LeadingRunIsMaximal | src/app/components/image-editor/image-editor.component.ts:483 | The run trimmed from the front is all white space, and the next character is not. |
| JsString.TrailingRunIsMaximal | src/app/components/image-editor/image-editor.component.ts:483 | The run trimmed from the back is all white space, and the character before it is not. |
| JsString.TrimIsCore | src/app/components/image-editor/image-editor.component.ts:483 | The trim is a slice of the input with only white space cut from either side. Neither of its ends is white space. |
| JsString.TrimEmptyIff | src/app/components/image-editor/image-editor.component.ts:483-484 | The text is committed (non-empty after trimming) exactly when the input holds a character that is not white space. |
| JsString.TrimIdempotent | src/app/components/image-editor/image-editor.component.ts:483 | Trimming twice is the same as trimming once. |
| JsString.TrimOfTrimmed | src/app/components/image-editor/image-editor.component.ts:483 | Text with no white space at either end is its own trim. |
| EditorMachine.Baseline | src/app/components/image-editor/image-editor.component.ts:522-524 | The baseline is the top plus the measured ascent, or plus the font size when the ascent is 0. |
| EditorMachine.FinishTextInput | src/app/components/image-editor/image-editor.component.ts:480-531 | Non-blank trimmed text is painted once at the overlay point mapped back to the canvas, with the baseline adjustment. Otherwise the overlay closes with empty text. A missing input element or a missing context does nothing. A missing wrapper returns before closing. |
| ImageEditor.ImageEditorComponent.FinishTextInput | src/app/components/image-editor/image-editor.component.ts:480-531 | Leaves the `EditorMachine.FinishTextInput` state. |
| EditorMachine.TextEntry | src/app/components/image-editor/image-editor.component.ts:438-531 | A click with the text tool, then commit under an unchanged offset, paints the trimmed text at the clicked point, or nothing for blank input. The overlay always closes. |
| EditorMachine.CancelTextInput | src/app/components/image-editor/image-editor.component.ts:534-537 | The overlay closes with empty text. Nothing is painted and nothing else changes. |
| ImageEditor.ImageEditorComponent.CancelTextInput | src/app/components/image-editor/image-editor.component.ts:534-537 | Leaves the `EditorMachine.CancelTextInput` state. |
| EditorStyle.TextFontSize | src/app/components/image-editor/image-editor.component.ts:540-543 | `fontSize \|\| 16` is never 0. It is 16 exactly when the size is unset, 0 or 16. |
| EditorStyle.TextColorOf | src/app/components/image-editor/image-editor.component.ts:546-549 | The overlay colour is never empty. With a brush colour set, it is the colour the committed text is painted in. |
| EditorStyle.TextFontWeight | src/app/components/image-editor/image-editor.component.ts:552-559 | With `w = fontWeight \|\| 60`, the result is `'300'` iff w ≤ 60, `'400'` iff 60 < w ≤ 80, and `'600'` iff w > 80. |
| EditorStyle.TextFontStyle | src/app/components/image-editor/image-editor.component.ts:562-565 | The result is `'italic'` exactly when the slant is positive, and `'normal'` otherwise. |
| EditorStyle.RasterFontStyle | src/app/components/image-editor/image-editor.component.ts:509 | The committed text's style is `'oblique'` or `'normal'`. |
| EditorStyle.SlantAgrees | src/app/components/image-editor/image-editor.component.ts:509 | The overlay is italic exactly when the committed text is oblique. |
| EditorMachine.OnToolSelected | src/app/components/image-editor/image-editor.component.ts:582-601 | Only the active tool changes. |
| ImageEditor.ImageEditorComponent.OnToolSelected | src/app/components/image-editor/image-editor.component.ts:582-601 | Leaves the `EditorMachine.OnToolSelected` state. |
| EditorStyle.ApplyChange | src/app/components/image-editor/image-editor.component.ts:603-610 | For each of the twelve panel properties, the change writes the new value into that one field and every other field, the tool, the drawing mode and the zoom included, keeps its old value. |
| EditorStyle.ChangesCompose | src/app/components/image-editor/image-editor.component.ts:603-610 | Of two changes to the same property, the later one wins. Changes to different properties commute. |
| EditorMachine.OnPropertyChange | src/app/components/image-editor/image-editor.component.ts:603-646 | The tool state becomes `ApplyChange` of the old state: the named property takes the new value and nothing else in it changes. With a context, a brightness, contrast or saturation change also sets that filter percentage and nothing else. |
| ImageEditor.ImageEditorComponent.OnPropertyChange | src/app/components/image-editor/image-editor.component.ts:603-646 | Leaves the `EditorMachine.OnPropertyChange` state. |
| EditorStyle.FilterStyleRoundTrip | src/app/components/image-editor/image-editor.component.ts:673-675 | The filter string reads back as exactly the three percentages, in order. |
| ImageEditor.ImageEditorComponent.GetFilterStyle | src/app/components/image-editor/image-editor.component.ts:673-675 | The component's filter string carries its current brightness, contrast and saturation. |
| ColorFilter.ToUint8Clamped | src/app/components/image-editor/image-editor.component.ts:713-715 | Storing into the clamped byte array gives a byte. It is within one half of an in-range value, and it keeps an in-range whole number unchanged. |
| ColorFilter.ContrastDenominatorNonZero | src/app/components/image-editor/image-editor.component.ts:702 | The contrast denominator is never zero for a whole-number contrast. |
| ColorFilter.ContrastNeutralAtZero | src/app/components/image-editor/image-editor.component.ts:702 | The contrast factor is 1 at contrast 0. |
| ColorFilter.ContrastAtDefault | src/app/components/image-editor/image-editor.component.ts:702 | The contrast factor is 129.5 at contrast 100. |
| ColorFilter.ContrastFactorIncreasing | src/app/components/image-editor/image-editor.component.ts:702 | Below the pole, the factor rises with the contrast. |
| ColorFilter.ContrastSpreads | src/app/components/image-editor/image-editor.component.ts:702-705 | For two contrasts `a < b` in [-100, 101], below the pole at 259, the factor of `b` moves any channel value other than 128 strictly further from 128 than the factor of `a`, before the clamp. |
| ColorFilter.ContrastChannel | src/app/components/image-editor/image-editor.component.ts:697-705 | The brightened and contrasted channel lies in [0, 255]. |
| ColorFilter.SaturateChannel | src/app/components/image-editor/image-editor.component.ts:708-711 | The saturated channel lies in [0, 255]. |
| ColorFilter.FilterPixel | src/app/components/image-editor/image-editor.component.ts:691-715 | Every colour channel written back is a byte. |
| ColorFilter.MapPixels | src/app/components/image-editor/image-editor.component.ts:690-716 | Mapping a buffer pixel by pixel keeps its length. |
| ColorFilter.MapPixelsAt | src/app/components/image-editor/image-editor.component.ts:690-716 | Each byte of the mapped buffer is the alpha byte unchanged, or a channel of its own pixel's new colour (`MappedAt`). |
| ColorFilter.MapPixelsByQuads | src/app/components/image-editor/image-editor.component.ts:690-716 | A buffer whose every quadruple was recoloured from the same place in the original is the mapped buffer. |
| ColorFilter.FilteredKeepsAlpha | src/app/components/image-editor/image-editor.component.ts:690-716 | The filtered buffer has the same length and alpha bytes, and every colour byte lies in [0, 255]. |
| ColorFilter.NeutralBuffer | src/app/components/image-editor/image-editor.component.ts:686-716 | At brightness 100, contrast 0 and saturation 100, a buffer of bytes is unchanged. |
| ColorFilter.DefaultParamsNotIdentity | src/app/components/image-editor/image-editor.component.ts:686-716 | At the default (100, 100, 100), the grey pixel (100, 100, 100) becomes black. |
| ColorFilter.DoubleBrightnessExample | src/app/components/image-editor/image-editor.component.ts:727-732 | `applyFilter(200, 100, 100)` turns the pixel (100, 100, 100) white. |
| ImageEditor.ImageEditorComponent.MapPixelsInPlace | src/app/components/image-editor/image-editor.component.ts:690-716 | The in-place loop over `i += 4` writes bytes `i..i+2` and leaves the array equal to `MapPixels` of its old contents. |
| EditorMachine.ApplyFiltersToCanvas | src/app/components/image-editor/image-editor.component.ts:678-724 | The buffer is filtered with the current percentages, which then return to 100. Without a context, nothing happens. |
| ImageEditor.ImageEditorComponent.ApplyFiltersToCanvas | src/app/components/image-editor/image-editor.component.ts:678-724 | Leaves the `EditorMachine.ApplyFiltersToCanvas` state. |
| EditorMachine.ApplyFilter | src/app/components/image-editor/image-editor.component.ts:727-732 | Stores the three arguments, then applies them. The buffer is filtered with exactly the arguments. |
| EditorMachine.ApplyFilterWritesColourOnly | src/app/components/image-editor/image-editor.component.ts:678-732 | Applying a filter keeps the length, the invariant and every alpha byte, and leaves bytes in the colour channels. |
| ImageEditor.ImageEditorComponent.ApplyFilter | src/app/components/image-editor/image-editor.component.ts:727-732 | Leaves the `EditorMachine.ApplyFilter` state. |
| History.AddToHistory | src/app/services/ai-image.service.ts:257-262 | The new item is element 0, followed by the old history in order, truncated to min(n+1, 50) items. |
| History.AddAllBounded | src/app/services/ai-image.service.ts:257-262 | However many items are added, the history never exceeds 50. |
| History.ToggleFavorite | src/app/services/ai-image.service.ts:304-310 | Items with the id have their favourite flag negated. Every other item, the order and the length stay the same. |
| History.ToggleInvolution | src/app/services/ai-image.service.ts:304-310 | Toggling the same id twice restores the history. |
| History.FilterMembers | src/app/services/ai-image.service.ts:313-322 | A filtered history holds exactly the kept items. |
| History.FilterIdempotent | src/app/services/ai-image.service.ts:313-322 | Filtering twice by the same predicate is filtering once. |
| History.FilterAppend | src/app/services/ai-image.service.ts:313-322 | `filter` distributes over concatenation, so the kept entries stay in their relative order. |
| History.DeleteFromHistory | src/app/services/ai-image.service.ts:313-317 | The result holds exactly the items whose id differs, in their original order. |
| History.DeleteAbsent | src/app/services/ai-image.service.ts:313-317 | Deleting an id that is not present leaves the history unchanged. |
| History.DeleteTwice | src/app/services/ai-image.service.ts:313-317 | Deleting twice is deleting once. |
| History.DeleteInOrder | src/app/services/ai-image.service.ts:313-317 | Deleting works entry by entry and keeps order and multiplicity. An entry is kept exactly when its id differs from the given id, and deleting from a concatenation deletes from each part. |
| History.Favorites | src/app/services/ai-image.service.ts:320-322 | The result holds exactly the items marked favourite. |
| History.FavoritesInOrder | src/app/services/ai-image.service.ts:320-322 | The favourites keep order and multiplicity. An entry is kept exactly when it is marked, and taking favourites of a concatenation takes them of each part. |
| History.FavoritesAfterAdd | src/app/services/ai-image.service.ts:168-190 | Below the cap, adding a new non-favourite generation leaves the favourites unchanged. |
| AIRequests.IntOr | src/app/services/ai-image.service.ts:131 | `steps \|\| 20`: the given value unless it is absent or 0. |
| AIRequests.RealOr | src/app/services/ai-image.service.ts:132 | `guidanceScale \|\| 7.5`: the given value unless it is absent or 0. |
| AIRequests.BuildRequestBody | src/app/services/ai-image.service.ts:120-163 | Every body is a JSON object. |
| AIRequests.StableDiffusionBody | src/app/services/ai-image.service.ts:128-134 | Stable Diffusion gets the prompt and the size. Its `steps` and `guidance_scale` are the caller's values, or 20 and 7.5 in their place, and are never falsy. Its `seed` is the caller's seed as given: absent, `null`, or the number. |
| AIRequests.QwenBody | src/app/services/ai-image.service.ts:136-141 | Qwen image edit gets the prompt, the size, and the input and mask images as given. |
| AIRequests.AspectRatioRoundTrip | src/app/services/ai-image.service.ts:155 | The `w:h` string reads back as the width and the height. |
| AIRequests.ImagenBody | src/app/services/ai-image.service.ts:143-158 | Imagen gets one instance with the prompt and the input image as `image.bytesBase64Encoded`. Its parameters are `sampleCount` 1, an aspect ratio that reads back as the requested size, and `guidanceScale` as given, or 7.5 in its place. |
| AIRequests.UnsupportedBody | src/app/services/ai-image.service.ts:160-161 | Any other model gets exactly the keys `prompt`, `width` and `height`. |
| AIRequests.ExtractImageFromResponse | src/app/services/ai-image.service.ts:195-207 | An unsupported model fails with `Unsupported model: <name>`. For every other model, extraction fails exactly when the response is null or undefined, and then with the `TypeError` of reading a property of it. |
| AIRequests.ExtractGenerated | src/app/services/ai-image.service.ts:197-199 | Extraction for the Hugging Face models fails exactly on a null or undefined response, with a `TypeError`. Otherwise the result is truthy exactly when `generated_image` or `[0].generated_image` is truthy. |
| AIRequests.ExtractHuggingFace | src/app/services/ai-image.service.ts:197-199 | For any object answer whose first `generated_image` member is truthy, the result is that member. For any array answer whose first element is an object, the result is that object's first `generated_image` member. |
| AIRequests.ExtractImagen | src/app/services/ai-image.service.ts:201-202 | For any object answer whose first `predictions` member is an array starting with an object, the result is that object's first `bytesBase64Encoded` member. |
| AIRequests.ErrorMessage | src/app/services/ai-image.service.ts:216-247 | An `ErrorEvent` gives `Client error: …`. Statuses 401, 403, 404, 410, 429, 500 and 503 give their fixed messages. Any other status gives `Server error: <status> - <message or 'Unknown error'>`. |
| AIRequests.GenericMessageNamesStatus | src/app/services/ai-image.service.ts:245-246 | The generic server message reads back as its status. |
| Decimal.IntToStringInjective | src/app/services/ai-image.service.ts:246 | Two statuses that print the same text are the same status. |
| AIRequests.FixedMessagesAreNotGeneric | src/app/services/ai-image.service.ts:223-246 | No fixed message can be read as a generic status message. |
| AIRequests.RetryDelay | src/app/services/ai-image.service.ts:76-91 | A retry happens exactly when the status is outside [400, 500) and the attempt `index+1` is at most 3. |
| AIRequests.ScheduleShape | src/app/services/ai-image.service.ts:76-91 | From failure number `index`, at most `3 - index` retries follow. Each waits `1000·2^(index+k+1)` ms, and none follows a client error. |
| AIRequests.RetryScheduleShape | src/app/services/ai-image.service.ts:76-91 | A request is retried at most 3 times, waiting a prefix of 2000, 4000, 8000 ms. It is never retried after a 4xx status. |
| AIRequests.ProgressTick | src/app/services/ai-image.service.ts:64-69 | A timer tick adds 10 below 90 and changes nothing otherwise. |
| AIRequests.TicksFromZero | src/app/services/ai-image.service.ts:64-69 | From 0, n ticks give min(10n, 90), so the simulated progress never passes 90. |
| AIRequests.TicksAtCap | src/app/services/ai-image.service.ts:64-69 | Once the progress is 90, further ticks leave it at 90. |
| ServiceMachine.Initial | src/app/services/ai-image.service.ts:37-49 | A new service is not generating, shows progress 0, has no timer running and no error, and holds the stored history. |
| ServiceMachine.GenerateImage | src/app/services/ai-image.service.ts:55-69 | Starting a request sets generating on, progress to 0 and error to none, starts the timer, and keeps the history. |
| ServiceMachine.Tick | src/app/services/ai-image.service.ts:64-69 | A running timer applies `ProgressTick`. A stopped timer changes nothing. |
| ServiceMachine.OnResponse | src/app/services/ai-image.service.ts:72-75 | A response stops the timer and sets the progress to 100. |
| ServiceMachine.HistoryItem | src/app/services/ai-image.service.ts:168-185 | The new entry has the id, the prompt and the model, and is not a favourite. |
| ServiceMachine.HandleSuccess | src/app/services/ai-image.service.ts:168-190 | On success, the entry is prepended to the history, generating ends and the progress is 0. An extraction error is returned and nothing changes. |
| ServiceMachine.SuccessRecordsImage | src/app/services/ai-image.service.ts:168-190 | After a successful response, the new entry leads the history, the history has min(n+1, 50) entries, and the service is idle. |
| ServiceMachine.HandleErrorAsWritten | src/app/services/ai-image.service.ts:212-252 | `handleError` as written sets generating off, progress to 0 and the mapped message, and leaves the timer as it was. |
| ServiceMachine.ErrorLeavesTimerRunning | src/app/services/ai-image.service.ts:64-75 | As written, one tick after a failed request makes the progress 10 while nothing is being generated. |
| ServiceMachine.HandleError | src/app/services/ai-image.service.ts:212-252 | The corrected `handleError` ends generating, sets the progress to 0, stops the timer and shows the mapped message. The history is kept. |
| ServiceMachine.ErrorStopsTimer | src/app/services/ai-image.service.ts:212-252 | After the corrected error handling, any number of ticks changes nothing. |
| ServiceMachine.QuietTicks | src/app/services/ai-image.service.ts:64-69 | A service that is not generating and has no running timer is unchanged by any number of ticks. |
| ServiceMachine.TickKeepsInv | src/app/services/ai-image.service.ts:64-69 | A tick keeps the progress a percentage and never lowers it. |
| ServiceMachine.ProgressWhileWaiting | src/app/services/ai-image.service.ts:55-69 | While a request waits, n ticks take the progress to min(10n, 90) and generating stays on. |
| ServiceMachine.TickNIsTicks | src/app/services/ai-image.service.ts:64-69 | While the timer runs, n firings change only the progress, which becomes `Ticks` of the old value. |
| ServiceMachine.TransitionsKeepQuiet | src/app/services/ai-image.service.ts:55-328 | Every transition keeps the progress within [0, 100]. Whenever nothing is generating, the progress is 0 and no timer runs. |
| AIService.AIImageService.constructor | src/app/services/ai-image.service.ts:37-49 | Leaves the `ServiceMachine.Initial` state. |
| AIService.AIImageService.GenerateImage | src/app/services/ai-image.service.ts:55-61 | Leaves the `ServiceMachine.GenerateImage` state and returns the body `buildRequestBody` produces. |
| AIService.AIImageService.Tick | src/app/services/ai-image.service.ts:64-69 | Leaves the `ServiceMachine.Tick` state. |
| AIService.AIImageService.OnResponse | src/app/services/ai-image.service.ts:72-75 | Leaves the `ServiceMachine.OnResponse` state. |
| AIService.AIImageService.HandleSuccess | src/app/services/ai-image.service.ts:168-190 | Leaves the `ServiceMachine.HandleSuccess` state and returns the new entry. On an extraction error, it returns the error and leaves the state unchanged. |
| AIService.AIImageService.HandleError | src/app/services/ai-image.service.ts:212-252 | Leaves the corrected `ServiceMachine.HandleError` state and returns the mapped message. |
| AIService.AIImageService.AddToHistory | src/app/services/ai-image.service.ts:257-262 | Leaves the `ServiceMachine.AddItem` state. The history becomes `History.AddToHistory` of the old one and nothing else changes. |
| AIService.AIImageService.ToggleFavorite | src/app/services/ai-image.service.ts:304-310 | Leaves the `ServiceMachine.ToggleFavoriteOf` state. The history becomes `History.ToggleFavorite` of the old one and nothing else changes. |
| AIService.AIImageService.DeleteFromHistory | src/app/services/ai-image.service.ts:313-317 | Leaves the `ServiceMachine.DeleteItem` state. The history becomes `History.DeleteFromHistory` of the old one and nothing else changes. |
| AIService.AIImageService.GetFavorites | src/app/services/ai-image.service.ts:320-322 | Returns exactly the favourite entries, in order, and changes nothing. |
| AIService.AIImageService.ClearHistory | src/app/services/ai-image.service.ts:325-328 | Leaves the `ServiceMachine.ClearHistory` state: the history becomes empty and nothing else changes. |
| AIService.AIImageService.ClearError | src/app/services/ai-image.service.ts:299-301 | Leaves the `ServiceMachine.ClearError` state: the error becomes none and nothing else changes. |
| AIService.SuccessfulRequest | src/app/services/ai-image.service.ts:55-190 | Start, a tick, the response, then success puts the entry at the head of the history and leaves the service idle with the timer stopped. |

## Left out

- **Browser rasterisation.** `beginPath`/`lineTo`/`stroke`, `arc`, `fillRect`/`strokeRect` and `fillText` are foreign platform calls. They are an abstract `Rasterizer` parameter, so no pixel of a line, arc or glyph is specified. `measureText` enters as the ascent parameter.
- **Canvas context style.** The leftover effects on the context are not modelled: `strokeStyle`, `fillStyle`, `lineWidth`, `globalCompositeOperation` and `fontVariationSettings`, including the `'fontVariationSettings' in ctx` guard. Each painting command carries its own colour, width and font instead.
- **Resize and layout.** `resizeCanvas` with its device-pixel-ratio scaling, `ResizeObserver`, window listeners, `handleResize` and `isMobile` are layout plumbing.
- **Image import and export.** `loadImage` decodes an image asynchronously, and `getImageAsBase64` calls `toDataURL`. Both are platform image codecs.
- **Focus, change detection and logging.** `setTimeout` focus, `cdr.detectChanges`, the touch handlers' `e.preventDefault()` and console output have no effect on the modelled state.
- **Floating point.** Channel arithmetic is over exact reals, so IEEE rounding of the intermediate values is not modelled. Only the final store into `Uint8ClampedArray` (clamp, then round half to even) is modelled exactly.
- **Coordinate rounding.** Canvas and overlay coordinates are also exact reals, but the source computes them in doubles, and the wrapper offsets from `getBoundingClientRect` are often fractional. The following hold exactly only over reals, and in the source only up to rounding:
  - `Geometry.OverlayRoundTrip` and `Geometry.OverlayDrift`: in doubles, `(x + o) - o` need not equal `x`.
  - `Geometry.RectCoversDrag`: the far edge `x + w` equals the larger coordinate.
  - `Geometry.CircleFromDrag`: the centre is the midpoint, while the source computes `startX + width / 2`.
- **Filter parameters are integers.** They come from the properties panel as whole numbers, so a fractional contrast near the pole at 101.57 is not modelled.
- **Property keys.** `onPropertyChange` accepts any key. The model covers the twelve keys the properties panel sends. Other keys would add fields to the state object.
- **Unused history fields.** The `history.undo` and `history.redo` fields of the editor state are never read by the core.
- **Network, storage and identity.** The HTTP post, the rxjs operators and timers themselves, headers and endpoints, `localStorage` load and save, `generateId` (clock and random) and timestamps are all left out. Responses, errors, ids and the stored history are parameters. Each timer firing is one `Tick`.
- **Concurrent requests.** Requests that overlap share the subjects and timers. Only one request in flight is modelled.
- **Responses that are strings or numbers.** Reading a property of a response is modelled for objects, arrays, null and undefined, and `v[0]` also reads an object's key `"0"`. A string or a number has no property of its own here: `"abc"[0]` is `undefined` in the model, not `"a"`. No property the source reads on that character exists, so the extracted image is the same.
- **Unread entry fields.** `handleSuccess` spreads the response's `parameters`, `status` and `timestamp` into each history entry. `GenerationHistory` leaves these out because no modelled operation reads them.
- **Image values.** A non-string image value other than `undefined` (a number, say) is recorded as an absent image.
- AIService.AIImageService.HandleError: runs the corrected handler, which also stops the progress timer. The source's `handleError` leaves the timer running, as `ServiceMachine.HandleErrorAsWritten` models (see Findings).
- **Extraction errors.** These are modelled as the source pipeline routes them. The `catchError` comes before `tap(handleSuccess)`, so an exception from `extractImageFromResponse` reaches the subscriber without going through `handleError`. `generating` stays on. The model returns the error and leaves the state unchanged.
- **Number printing.** `IntToString` prints whole numbers in decimal. JavaScript's exponent notation for magnitudes of 10^21 and above is not modelled, and neither are NaN or fractional widths in the aspect ratio.

Three properties of the colour and shape code are easy to misread:
- **Contrast 100 is not neutral.** The factor at contrast 100 is 129.5 (`ColorFilter.ContrastAtDefault`), and mid-grey goes to black (`ColorFilter.DefaultParamsNotIdentity`). Brightness 100, contrast 0, saturation 100 is neutral (`ColorFilter.NeutralBuffer`).
- **Sub-pixel extents are kept.** `Math.abs(Δ) || 1` keeps an extent shorter than one pixel and replaces only a zero extent by 1 (`Geometry.Extent`).
- **Doubling brightness.** `applyFilter(200, 100, 100)` saturates the pixel (100, 100, 100) to white rather than doubling it (`ColorFilter.DoubleBrightnessExample`).

## Findings

| source | as written | input that shows it | evidently intended | confidence | as-written member | corrected member |
|---|---|---|---|---|---|---|
| src/app/services/ai-image.service.ts:64-75, 212-214 | The progress timer is cleared only in the `tap` that runs on a response. When the request fails, `handleError` sets the progress to 0, but the timer keeps firing and raises the progress again. | A request that fails with status 404, followed by one timer firing: the progress becomes 10 while `generating` is false. | The timer stops when the request ends, either way, and the progress stays 0 while nothing is generated. | high, not executed | ServiceMachine.HandleErrorAsWritten, exhibited by ServiceMachine.ErrorLeavesTimerRunning | ServiceMachine.HandleError, with ServiceMachine.ErrorStopsTimer and ServiceMachine.TransitionsKeepQuiet; the service class runs it in AIService.AIImageService.HandleError |
