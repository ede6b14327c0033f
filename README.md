# Face swap on GPUImage: a Dafny model

This project models the core of a face-swap app built on the GPUImage
library for Android. Two face-mesh results come in: the landmarks of an
origin face and of a mask face. They are turned into a `SwapFilter`, which
draws the mask image over the origin face's triangle mesh. The app hands the
filter to a `GPUImageRenderer`, which owns the image texture and two queues
of deferred runnables, and fits the image to the output surface. The model
has four modules:

- `Graphics` (graphics.dfy): the shared vocabulary.
  - `Bitmap`, a class with a recycled flag.
  - A float that may be non-finite, because Kotlin's `2.0 / 0` is infinity.
  - The 16-bit `Short` index type and `NO_TEXTURE`.
  - A log of the GL calls a filter issues.
- `FaceSwap` (swap_filter.dfy): `SwapFilter.kt`.
  - The face-contour opacity table and `create_vbo_alpha_array`.
  - The vertex shader's map from landmark space to clip space, and its inverse.
  - The projection matrix written before each draw.
  - The mask texture's life cycle: queued uploads, recycling, destruction.
  - The two draw entry points.
- `FaceSwapActivity` (face_swap_activity.dfy): `makeFaceSwapFilter`.
  - The loop that packs landmarks into vertex and texture-coordinate arrays.
  - Its error paths: null results, missing faces, a mask with fewer landmarks.
- `Renderer` (gpu_image_renderer.dfy): `GPUImageRenderer.java`.
  - The run-on-draw and run-on-draw-end queues, which are FIFO.
  - The order of work within one frame.
  - Texture upload, reuse and deletion.
  - The padding of odd-width bitmaps.
  - Rotation, flips and scale type, which decide the cube and texture buffers.

Each class has three parts:
- The source's fields, with methods that state their whole new state.
- A value snapshot of those fields (`Textures()`, `State()`).
- Pure functions that specify the snapshot's change (`RunUploads`, `Step`,
  `RunTasks`, `Frame`), with the source's promises proved about them as lemmas.

The GL driver is modelled by two things. A counter hands out fresh texture
names. A trace records, in order, the GL and filter calls whose effect
outlives the call.

Four behaviours of the code worth noting:
- The opacity array has one entry per triangle-index slot (`tris.size`), not
  one per landmark.
- `onDraw`, the entry point the renderer calls, uses neither the mask
  texture nor the opacity array. It draws the incoming texture, without
  blending. Only the unused `onDrawFace` blends the mask.
- When the mask face has fewer landmarks than the origin face, the result is
  an index error. A mask with more landmarks has its extra ones ignored.
- A mask result with no faces builds no filter, and raises no error.

## Model

| member | source | states |
|---|---|---|
| Graphics.Divide | library/src/main/java/jp/co/cyberagent/android/gpuimage/SwapFilter.kt:331-332 | the quotient is finite exactly when the divisor is non-zero, and then it times the divisor gives the dividend |
| FaceSwap.ContourDistinct | library/src/main/java/jp/co/cyberagent/android/gpuimage/SwapFilter.kt:254-258 | the contour table has 36 entries, all distinct |
| FaceSwap.ContourSlotInverts | library/src/main/java/jp/co/cyberagent/android/gpuimage/SwapFilter.kt:254-258 | every contour index maps back to its own slot of the table, an explicit inverse of the table |
| FaceSwap.ContourBounds | library/src/main/java/jp/co/cyberagent/android/gpuimage/SwapFilter.kt:254-258 | every contour index is in 0..454, and 454 occurs |
| FaceSwap.CreateVboAlphaArray | library/src/main/java/jp/co/cyberagent/android/gpuimage/SwapFilter.kt:248-289 | one opacity per entry of `tris`; slot i is 0 exactly when i is a contour index and 1 exactly when it is not; the loop with early `break` computes the `AlphaArray` specification |
| FaceSwap.ContourZeroCount | library/src/main/java/jp/co/cyberagent/android/gpuimage/SwapFilter.kt:260-275 | the opacity array has exactly 36 zeros if and only if it is longer than the largest contour index |
| FaceSwap.ShaderPosition | library/src/main/java/jp/co/cyberagent/android/gpuimage/SwapFilter.kt:53 | the shader's map is inverted by `LandmarkOfClip`; the unit square lands in the clip square; z and w pass through |
| FaceSwap.ShaderCorners | library/src/main/java/jp/co/cyberagent/android/gpuimage/SwapFilter.kt:53 | the four unit-square corners go to the four clip corners, with y flipped |
| FaceSwap.ShaderFlipsY | library/src/main/java/jp/co/cyberagent/android/gpuimage/SwapFilter.kt:53 | the map reverses the order of y and keeps the order of x |
| FaceSwap.ProjectionMatrix | library/src/main/java/jp/co/cyberagent/android/gpuimage/SwapFilter.kt:331-332 | `matPrj` before a draw has 16 entries, and all are finite exactly when width and height are non-zero |
| FaceSwap.ProjectionMapsPixels | library/src/main/java/jp/co/cyberagent/android/gpuimage/SwapFilter.kt:145-149 | for a non-empty output, the matrix sends pixel (x, y) to (2x/W - 1, 1 - 2y/H) |
| FaceSwap.ProjectionCorners | library/src/main/java/jp/co/cyberagent/android/gpuimage/SwapFilter.kt:145-149 | the four pixel corners of the output go to the four clip corners |
| FaceSwap.ProjectionAgreesWithShader | library/src/main/java/jp/co/cyberagent/android/gpuimage/SwapFilter.kt:331-332 | a landmark scaled to pixels and then projected lands where the shader puts the landmark itself |
| FaceSwap.FirstLive | library/src/main/java/jp/co/cyberagent/android/gpuimage/SwapFilter.kt:209-212 | the index of the first bitmap that is not recycled, with everything before it recycled; none when all are recycled |
| FaceSwap.UploadsIdleOnceLoaded | library/src/main/java/jp/co/cyberagent/android/gpuimage/SwapFilter.kt:209 | once a mask texture exists, queued uploads change nothing |
| FaceSwap.UploadsLoadAtMostOnce | library/src/main/java/jp/co/cyberagent/android/gpuimage/SwapFilter.kt:207-219 | from `NO_TEXTURE`, a batch of uploads loads only the first live bitmap, under one fresh name, or does nothing when all are recycled |
| FaceSwap.UploadsDrawNothing | library/src/main/java/jp/co/cyberagent/android/gpuimage/SwapFilter.kt:207-219 | upload runnables issue no draw call |
| FaceSwap.SwapFilter.constructor | library/src/main/java/jp/co/cyberagent/android/gpuimage/SwapFilter.kt:161-171 | stores vtx, uv and colour; `matPrj` starts at its initial value, with no mask texture, no bitmap and nothing queued |
| FaceSwap.SwapFilter.OnOutputSizeChanged | library/src/main/java/jp/co/cyberagent/android/gpuimage/SwapFilter.kt:331-332 | records the output size that the projection reads and changes nothing else |
| FaceSwap.SwapFilter.SetBitmap | library/src/main/java/jp/co/cyberagent/android/gpuimage/SwapFilter.kt:200-219 | a recycled bitmap is ignored; null is stored and queues nothing; a live bitmap is stored and its upload is queued last |
| FaceSwap.SwapFilter.GetBitmap | library/src/main/java/jp/co/cyberagent/android/gpuimage/SwapFilter.kt:221-223 | returns the stored bitmap |
| FaceSwap.SwapFilter.OnInitialized | library/src/main/java/jp/co/cyberagent/android/gpuimage/SwapFilter.kt:193-198 | re-queues the upload of the stored bitmap exactly when it is non-null and live |
| FaceSwap.SwapFilter.IfNeedInit | library/src/main/java/jp/co/cyberagent/android/gpuimage/SwapFilter.kt:193-198 | the first call initialises and re-queues a live bitmap; later calls do nothing |
| FaceSwap.SwapFilter.RecycleBitmap | library/src/main/java/jp/co/cyberagent/android/gpuimage/SwapFilter.kt:225-230 | a live stored bitmap is recycled and forgotten; a stored bitmap that was already recycled stays stored; either way the stored bitmap ends up recycled |
| FaceSwap.SwapFilter.OnDestroy | library/src/main/java/jp/co/cyberagent/android/gpuimage/SwapFilter.kt:232-240 | deletes the mask texture and resets it to `NO_TEXTURE` |
| FaceSwap.SwapFilter.RunPendingOnDrawTasks | library/src/main/java/jp/co/cyberagent/android/gpuimage/SwapFilter.kt:295-296 | empties the queue, and the texture state becomes `RunUploads` of the old queue |
| FaceSwap.SwapFilter.UpdateProjection | library/src/main/java/jp/co/cyberagent/android/gpuimage/SwapFilter.kt:331-332 | `matPrj` becomes `ProjectionMatrix` of the output size |
| FaceSwap.SwapFilter.OnDraw | library/src/main/java/jp/co/cyberagent/android/gpuimage/SwapFilter.kt:291-387 | uses the program and runs the queued uploads; when uninitialised does nothing more; otherwise rewrites the projection and issues bind of the incoming texture, clear and one draw of all `faceTris` indices; the draw count rises by exactly one when initialised |
| FaceSwap.SwapFilter.DrawFaceTris | library/src/main/java/jp/co/cyberagent/android/gpuimage/SwapFilter.kt:356-379 | the draw half of `onDraw`: binds the incoming texture, clears, and issues one draw of all `faceTris` indices, which raises the draw count by one; nothing else changes |
| FaceSwap.SwapFilter.OnDrawFace | library/src/main/java/jp/co/cyberagent/android/gpuimage/SwapFilter.kt:400-516 | like `OnDraw`, but when initialised it also builds `AlphaArray(\|faceTris\|)` and draws blended from the mask texture |
| FaceSwapActivity.PositionsLength | sample/src/main/java/jp/co/cyberagent/android/gpuimage/sample/activity/FaceSwapActivity.kt:211 | three floats per origin landmark |
| FaceSwapActivity.TexCoordsLength | sample/src/main/java/jp/co/cyberagent/android/gpuimage/sample/activity/FaceSwapActivity.kt:212 | two floats per mask landmark |
| FaceSwapActivity.PositionsAt | sample/src/main/java/jp/co/cyberagent/android/gpuimage/sample/activity/FaceSwapActivity.kt:215-218 | slots 3i, 3i+1 and 3i+2 hold x, y and z of landmark i |
| FaceSwapActivity.TexCoordsAt | sample/src/main/java/jp/co/cyberagent/android/gpuimage/sample/activity/FaceSwapActivity.kt:220-222 | slots 2i and 2i+1 hold x and y of landmark i |
| FaceSwapActivity.PositionsFromSlots | sample/src/main/java/jp/co/cyberagent/android/gpuimage/sample/activity/FaceSwapActivity.kt:213-225 | any array with those slot contents is the packed position array |
| FaceSwapActivity.TexCoordsFromSlots | sample/src/main/java/jp/co/cyberagent/android/gpuimage/sample/activity/FaceSwapActivity.kt:213-225 | any array with those slot contents is the packed texture-coordinate array |
| FaceSwapActivity.PositionsRoundTrip | sample/src/main/java/jp/co/cyberagent/android/gpuimage/sample/activity/FaceSwapActivity.kt:211-218 | unpacking the packed positions gives the landmarks back |
| FaceSwapActivity.TexCoordsRoundTrip | sample/src/main/java/jp/co/cyberagent/android/gpuimage/sample/activity/FaceSwapActivity.kt:212-222 | unpacking the packed texture coordinates gives each landmark's (x, y) |
| FaceSwapActivity.VertexFollowsOriginLandmark | sample/src/main/java/jp/co/cyberagent/android/gpuimage/sample/activity/FaceSwapActivity.kt:215-218 | the clip position of mesh vertex i is the image of origin landmark i under the shader's map |
| FaceSwapActivity.PackLandmarks | sample/src/main/java/jp/co/cyberagent/android/gpuimage/sample/activity/FaceSwapActivity.kt:211-225 | fails with an index error exactly when the mask has fewer landmarks than the origin; otherwise gives the packed origin positions and the packed first mask landmarks, slot by slot |
| FaceSwapActivity.MakeFaceSwapFilter | sample/src/main/java/jp/co/cyberagent/android/gpuimage/sample/activity/FaceSwapActivity.kt:195-260 | a null result is a null dereference; an origin without faces is an index error; a mask without faces builds nothing; otherwise the filter gets the packed arrays and opaque white |
| Renderer.OrientedSwapsQuarterTurns | library/src/main/java/jp/co/cyberagent/android/gpuimage/GPUImageRenderer.java:392-396 | for a non-square output, width and height are swapped exactly for 90 and 270 degrees |
| Renderer.AdjustedRewritesOneBuffer | library/src/main/java/jp/co/cyberagent/android/gpuimage/GPUImageRenderer.java:409-439 | CENTER_CROP keeps the plain cube and crops the texture coordinates; any other scale type scales the cube and keeps the plain rotated coordinates; nothing else changes |
| Renderer.AdjustedFitOrientation | library/src/main/java/jp/co/cyberagent/android/gpuimage/GPUImageRenderer.java:388-400 | the fit (held by the cropped texture coordinates under CENTER_CROP, by the scaled cube otherwise) is the image size and the output size, swapped exactly for a quarter turn |
| Renderer.StepValid | library/src/main/java/jp/co/cyberagent/android/gpuimage/GPUImageRenderer.java:301 | every runnable keeps the image texture either `NO_IMAGE` or a name the driver has handed out |
| Renderer.RunTasksAppend | library/src/main/java/jp/co/cyberagent/android/gpuimage/GPUImageRenderer.java:188-194 | running two queued batches one after the other is running their concatenation |
| Renderer.SetImageBitmapPadding | library/src/main/java/jp/co/cyberagent/android/gpuimage/GPUImageRenderer.java:329-355 | padding is 1 exactly for odd widths; the uploaded width is even and equals width plus padding; the recorded image size is the unpadded one |
| Renderer.DeleteImageResets | library/src/main/java/jp/co/cyberagent/android/gpuimage/GPUImageRenderer.java:291-303 | the image texture is deleted and the id becomes `NO_IMAGE` |
| Renderer.UploadAfterDeleteIsFresh | library/src/main/java/jp/co/cyberagent/android/gpuimage/GPUImageRenderer.java:301-345 | a bitmap loaded after `deleteImage` is not written into the deleted texture: the upload takes the generate branch, draws the next name from the driver and uploads under it |
| Renderer.DeleteLastLeavesNoImage | library/src/main/java/jp/co/cyberagent/android/gpuimage/GPUImageRenderer.java:156-162 | when the run-on-draw queue ends with `deleteImage`, the filter is given `NO_IMAGE` |
| Renderer.StepTrace | library/src/main/java/jp/co/cyberagent/android/gpuimage/GPUImageRenderer.java:188-194 | a runnable records its own run and no filter draw |
| Renderer.RunTasksTrace | library/src/main/java/jp/co/cyberagent/android/gpuimage/GPUImageRenderer.java:188-194 | draining a queue records exactly its runnables, in FIFO order, and no filter draw |
| Renderer.FrameBeforeDraw | library/src/main/java/jp/co/cyberagent/android/gpuimage/GPUImageRenderer.java:156-162 | before the draw, a frame records the clear and then exactly the run-on-draw runnables |
| Renderer.FrameAfterDraw | library/src/main/java/jp/co/cyberagent/android/gpuimage/GPUImageRenderer.java:163-168 | after the draw, a frame records exactly the run-on-draw-end runnables |
| Renderer.FrameOrder | library/src/main/java/jp/co/cyberagent/android/gpuimage/GPUImageRenderer.java:156-169 | a frame clears, runs the whole run-on-draw queue, then draws exactly once with the texture and buffers that queue left, then runs the whole run-on-draw-end queue |
| Renderer.CropTextureCoords | library/src/main/java/jp/co/cyberagent/android/gpuimage/GPUImageRenderer.java:418-423 | cropping keeps eight texture coordinates; a 0 moves in to the distance and any other coordinate to 1 minus the distance, so a unit-square coordinate c becomes c + (1 - 2c) times its axis's distance |
| Renderer.AddDistanceOnUnitSquare | library/src/main/java/jp/co/cyberagent/android/gpuimage/GPUImageRenderer.java:448-450 | coordinates 0 and 1 move inwards symmetrically, and a distance of 0 changes nothing |
| Renderer.CropByZeroIsIdentity | library/src/main/java/jp/co/cyberagent/android/gpuimage/GPUImageRenderer.java:415-423 | a crop by zero distances leaves unit-square coordinates unchanged |
| Renderer.GPUImageRenderer.constructor | library/src/main/java/jp/co/cyberagent/android/gpuimage/GPUImageRenderer.java:102-122 | empty queues, no image, CENTER_CROP, and buffers fitted for NORMAL rotation without flips |
| Renderer.GPUImageRenderer.OnSurfaceChanged | library/src/main/java/jp/co/cyberagent/android/gpuimage/GPUImageRenderer.java:131-153 | records the output size, passes it to the filter and re-fits the buffers |
| Renderer.GPUImageRenderer.OnDrawFrame | library/src/main/java/jp/co/cyberagent/android/gpuimage/GPUImageRenderer.java:155-169 | empties both queues, and the new state is `Frame` of the old state and queues |
| Renderer.GPUImageRenderer.RunAll | library/src/main/java/jp/co/cyberagent/android/gpuimage/GPUImageRenderer.java:188-194 | empties one queue, leaves the other alone, and the new state is `RunTasks` of the old queue |
| Renderer.GPUImageRenderer.RunTask | library/src/main/java/jp/co/cyberagent/android/gpuimage/GPUImageRenderer.java:191 | running one runnable moves the state by `Step` and keeps the queues |
| Renderer.GPUImageRenderer.LoadPreviewFrame | library/src/main/java/jp/co/cyberagent/android/gpuimage/GPUImageRenderer.java:214-227 | uploads the converted frame, and re-fits only when the frame width differs from the image width |
| Renderer.GPUImageRenderer.LoadBitmap | library/src/main/java/jp/co/cyberagent/android/gpuimage/GPUImageRenderer.java:327-356 | pads, uploads, records the unpadded size and re-fits |
| Renderer.GPUImageRenderer.LoadTexture | library/src/main/java/jp/co/cyberagent/android/gpuimage/GPUImageRenderer.java:220 | an absent texture gets the next fresh name; an existing one is reused; the upload is recorded |
| Renderer.GPUImageRenderer.OnPreviewFrame | library/src/main/java/jp/co/cyberagent/android/gpuimage/GPUImageRenderer.java:209-230 | allocates the RGB buffer once; queues a conversion only into an empty run-on-draw queue, so at most one is ever pending |
| Renderer.GPUImageRenderer.SetUpSurfaceTexture | library/src/main/java/jp/co/cyberagent/android/gpuimage/GPUImageRenderer.java:236-258 | queues the surface-texture set-up last |
| Renderer.GPUImageRenderer.SetFilter | library/src/main/java/jp/co/cyberagent/android/gpuimage/GPUImageRenderer.java:264-286 | queues the filter switch last |
| Renderer.GPUImageRenderer.DeleteImage | library/src/main/java/jp/co/cyberagent/android/gpuimage/GPUImageRenderer.java:291-304 | queues the deletion last |
| Renderer.GPUImageRenderer.SetImageBitmap | library/src/main/java/jp/co/cyberagent/android/gpuimage/GPUImageRenderer.java:319-358 | null queues nothing; any other bitmap queues its upload last |
| Renderer.GPUImageRenderer.SetScaleType | library/src/main/java/jp/co/cyberagent/android/gpuimage/GPUImageRenderer.java:364-366 | changes only the scale type; the buffers wait for the next re-fit |
| Renderer.GPUImageRenderer.AdjustImageScaling | library/src/main/java/jp/co/cyberagent/android/gpuimage/GPUImageRenderer.java:387-440 | the buffers become those of `Adjusted` |
| Renderer.GPUImageRenderer.SetRotation | library/src/main/java/jp/co/cyberagent/android/gpuimage/GPUImageRenderer.java:467-470 | sets the rotation and re-fits |
| Renderer.GPUImageRenderer.SetRotationAndFlip | library/src/main/java/jp/co/cyberagent/android/gpuimage/GPUImageRenderer.java:478-483 | sets the rotation and both flips, then re-fits |
| Renderer.GPUImageRenderer.SetRotationCamera | library/src/main/java/jp/co/cyberagent/android/gpuimage/GPUImageRenderer.java:458-461 | like `SetRotationAndFlip`, with the horizontal and vertical flips exchanged |
| Renderer.GPUImageRenderer.RunOnDraw | library/src/main/java/jp/co/cyberagent/android/gpuimage/GPUImageRenderer.java:501-505 | appends to the tail of the run-on-draw queue |
| Renderer.GPUImageRenderer.RunOnDrawEnd | library/src/main/java/jp/co/cyberagent/android/gpuimage/GPUImageRenderer.java:511-515 | appends to the tail of the run-on-draw-end queue |

## Left out

- GL state the model does not record: viewport, attribute pointers, uniforms,
  depth test, cull face and front face. Only calls whose effect outlives the
  call are traced.
- Shader rasterisation and blending: the fragment shaders and the ADD_BLEND
  shader pair, which no draw uses. Only the vertex shader's position map is
  modelled.
- `Matrix.setIdentityM`, `Matrix.multiplyMV` and the `u_PMVMatrix` upload.
  The active vertex shader never reads `u_PMVMatrix`. The matrix is modelled
  as written to `matPrj`, and its meaning is proved through `Transform`.
- Marshalling into direct `ByteBuffer`s: the models pass sequences.
- Floating point: values are reals. `toFloat` rounding and Float ratios are
  not modelled, and neither is `Math.round` in `adjustImageScaling`.
- FaceSwap.ProjectionMatrix: a non-finite entry is one `NonFinite` value; it does not
  tell infinity from NaN.
- Renderer.UploadAfterDeleteIsFresh: the driver's name supply is a counter that never
  reuses a name, whereas GL may hand a deleted name out again; the lemma states only that
  the upload generates a name, not that it differs from the deleted one.
- FaceSwap.SwapFilter: the filter's name counter is separate from the renderer's, though
  both stand for one GL driver, so the model may give the mask texture and the image
  texture equal names.
- Renderer.CropTextureCoords: it is not what `AdjustImageScaling` computes in the model,
  whose cropped buffer stays symbolic (`CroppedCoords`); it states what the cropping does to
  any eight coordinates.
- Renderer.AdjustedRewritesOneBuffer: the buffers are symbolic. They record
  the fit, rotation and flips they are computed from, not the cube's eight
  floats.
- The `TextureRotationUtil` coordinate table is not part of this model.
  Cropping is modelled on any eight coordinates (`CropTextureCoords`).
- `OpenGlUtils.loadTexture` is not part of this model.
  - Its name handling is assumed: a new name when given `NO_TEXTURE`, the
    given name otherwise.
  - Its recycling of the uploaded bitmap is not modelled.
- The `GPUImageFilter` base class is not part of this model.
  - Its run-on-draw queue is modelled for `SwapFilter` as a FIFO sequence of
    the mask uploads, the only runnables `SwapFilter` queues.
  - `ifNeedInit`, `onOutputSizeChanged` and `isInitialized` are modelled
    from how `SwapFilter` uses them.
  - The renderer's filter is a number, observed through trace events.
- `Constants.s_face_tris` is not part of this model. The triangle table is a
  constructor parameter.
- The name the camera's `SurfaceTexture` texture gets is not tracked.
  `SetUpSurfaceTexture` models only that a surface texture now exists. The
  camera calls are external.
- MediaPipe face mesh, camera, executors and UI callbacks: inputs reach the
  model as values.
- `surfaceChangedWaiter` and the `synchronized` blocks: the model is
  sequential, so concurrent enqueueing is not modelled.
- `FaceSwapFilter.kt` and `GalleryActivity.kt` are outside the modelled core.
- Logging; `setBackgroundColor` and `onSurfaceCreated`, which only set the
  GL clear colour, depth test and init; the trivial getters `getRotation`,
  `isFlippedHorizontally`, `isFlippedVertically`, `getFrameWidth` and
  `getFrameHeight`.
- FaceSwapActivity.MakeFaceSwapFilter: the tail of `makeFaceSwapFilter` (installing the
  filter with `gpuImage.setFilter`, `getBitmapWithFilterApplied(maskImage)`, the logging
  that dereferences `originImage!!` and may raise a null-pointer exception, and the UI
  update) is not modelled: the method ends with the filter's arguments.
- The one-argument `setImageBitmap(bitmap)`. It is
  `SetImageBitmap(bitmap, true)`.
- The YUV to RGBA conversion is native code. Only the allocation of the RGB
  buffer is tracked.
