# Ground-plane rectification: corner ordering, scale rule and click picking

This project models the small part of the calibration programs that is plain logic, with no
image processing in it. The programs compute a top-down (bird's-eye) view of a 1000 mm x 1500 mm
rectangle on the floor. The model covers:

- **The destination quad and scale rule** (`Rectification`). The rule works from a destination
  origin and a far corner. In `ipm.cpp`, `findTransform` takes them from two user clicks. In
  `part122.cpp`, `findTransform` and `find_unwarped_img` fix them to (0, 0) and (cols, rows) of
  the image. From them the programs compute
  `scale = min(dx/1000, dy/1500)` and `pixel_scale = 1/scale`, rescale both axes by `scale`,
  and list the destination corners top-left, top-right, bottom-right, bottom-left. Floats are
  modelled as `real`. The homography solve is represented by a `Transform` value that records
  the source and destination quads it was computed from.
- **Corner bookkeeping and the orientation search** (`CornerOrder`, `Part122`). This covers:
  - the `[0, 3, 2, 1]` reordering that `processImage` writes into the 4x2 `rectangular_points`
    buffer (only the last contour with more than 200 points whose approximation is a 4-gon is
    used);
  - `rotate_row`, done in place on an `array2<real>`;
  - `isitinside` and `checkbluebox`;
  - the loop in `main` that tries at most four rotations and stops at the first one the marker
    check accepts.

  The black-region contour extraction, `approxPolyDP`, `warpPerspective` and the blue-marker
  detector `blue_rect_calc` are function-typed parameters, so they are uninterpreted.
- **The click-collection state machine** (`Ipm`). The globals `result`, `idx`, `n` and `done`
  become the fields of a `Session` class. `mouseCallback` and `pickNPoints` become its methods.
  The mouse events a window would deliver are given as a finite input sequence.

Files: `results.dfy` (Option, Result), `geometry.dfy` (points, images, signed area),
`rectification.dfy`, `corner_order.dfy`, `part122.dfy`, `ipm.dfy`.

## Behaviour notes

- When no rotation is accepted, `main` continues with the corners back in their detected order;
  `Part122.Calibrate` reports this through its `oriented` flag.
- The corner reordering in `processImage` is not a rotation. It keeps corner 0 and reverses the
  direction of traversal (`KeepFirstReverseFlips`: the signed area changes sign).

## Model

| member | source | states |
|---|---|---|
| Rectification.Scale | part122.cpp:62-70 | the scale is at most dx/1000 and at most dy/1500, and equal to one of them (the binding axis fits exactly) |
| Rectification.Rectify | part122.cpp:59-79 | the quad exists exactly when the scale is non-zero; pixel scale times scale is 1; four corners starting at the origin |
| Rectification.RectifiedShape | part122.cpp:109-129 | the quad is axis-aligned, 1000s wide and 1500s high, so width:height is 1000:1500; twice its signed area is 2·width·height > 0, so it is listed clockwise on screen |
| Rectification.PositiveExtentScale | code/camera_calibration/03_inverse_perspective_mapping/ipm.cpp:110-122 | with positive deltas, scale and pixel_scale are positive, and pixel_scale = max(1000/dx, 1500/dy) |
| Rectification.PositiveExtentFits | code/camera_calibration/03_inverse_perspective_mapping/ipm.cpp:116-127 | with positive deltas the rescaled extent is positive and at most (dx, dy); it is equal on the width exactly when dx/1000 <= dy/1500, and likewise for the height; every corner lies in the box spanned by the two picked points |
| Rectification.FindPerspective | code/camera_calibration/03_inverse_perspective_mapping/ipm.cpp:107-129 | the transform is recorded as computed from the given corners (in order) and the rectified quad; it fails exactly when the quad does; the pixel scale is the reciprocal of the scale |
| Rectification.CanvasPerspective | part122.cpp:49-81 | with origin (0,0) and far corner (cols, rows): succeeds exactly on a non-empty image; the quad lies within cols x rows, is clockwise, and the pixel scale is max(1000/cols, 1500/rows) |
| Rectification.CanvasExample | part122.cpp:101-129 | an 800 x 1200 canvas gives pixel scale 1.25 and the quad (0,0), (800,0), (800,1200), (0,1200) |
| CornerOrder.RotateLeft | part122.cpp:233-240 | new row i is old row (i+1) mod 4 |
| CornerOrder.RotationsAt | part122.cpp:511-516 | after k rotations, row i holds the original corner (i+k) mod 4 |
| CornerOrder.RotationsCompose | part122.cpp:511-516 | j rotations followed by k rotations are j+k rotations |
| CornerOrder.FourRotationsRestore | part122.cpp:511-516 | four rotations give back the original order |
| CornerOrder.RotationsDistinct | part122.cpp:511-516 | rotation k starts at corner k; with distinct corners the four rotations are pairwise different orders |
| CornerOrder.RotationsKeepOrientation | part122.cpp:233-240 | rotating never changes the signed area, so never the direction of traversal |
| CornerOrder.KeepFirstReverse | part122.cpp:214-224 | new row i is corner (4-i) mod 4: rows receive corners 0, 3, 2, 1 |
| CornerOrder.KeepFirstReverseFlips | part122.cpp:214-224 | the reordering keeps corner 0, negates the signed area (reverses the direction), and is its own inverse |
| CornerOrder.ReverseRotateCommute | part122.cpp:214-240 | reordering a rotated quad equals rotating the reordered quad three times, so the four rotations the search tries are the reorderings of the four rotations |
| CornerOrder.SearchFrom | part122.cpp:511-516 | the search accepts the first accepted rotation at or after k, below 4, rejecting all before it; it is exhausted exactly when every remaining rotation is rejected |
| CornerOrder.SearchResult | part122.cpp:511-516 | the order left by the search is the first accepted rotation (accepted, with every earlier rotation rejected), or the original order after four rejected rotations |
| CornerOrder.SearchRecoversRotation | part122.cpp:511-516 | for a quad of distinct corners rotated k places from the expected order, with a check that accepts only the expected order, the search stops after (4-k) mod 4 rotations at the expected order |
| Part122.RotateRow | part122.cpp:233-240 | in place: the buffer becomes the left rotation of its old rows; every cell (i, j) receives old cell ((i+1) mod 4, j), so each row's x and y stay together |
| Part122.CornerRows | part122.cpp:214-224 | the written rows are corners 0, 3, 2, 1 of the curve as floats: they start at approx_curve[0] and have the opposite signed area to the curve |
| Part122.LastQualifying | part122.cpp:202-209 | finds the last contour with more than 200 points whose approximation has 4 vertices; none when no contour qualifies |
| Part122.ProcessImage | part122.cpp:163-231 | fails on an empty image and leaves the buffer unchanged; otherwise the buffer holds the reordered corners of the last qualifying contour, or its old contents when none qualifies |
| Part122.IsItInside | part122.cpp:286-296 | true exactly when every point has x <= cols/4 and y >= rows/2 (integer division); true on an empty list; false names a violating point |
| Part122.CheckBlueBox | part122.cpp:298-307 | false on an empty detection; otherwise the quadrant test on the detected curve |
| Part122.FindTransform | part122.cpp:42-90 | succeeds exactly on a non-empty image, with the given corners as the source quad |
| Part122.FindUnwarpedImg | part122.cpp:92-143 | the rectified image has the input's size and the pixels the warp produces from the transform of the given corners |
| Part122.Calibrate | part122.cpp:509-517 | fails exactly on an empty image; otherwise the buffer ends at the first rotation (of at most four) of the detected corners that the marker check accepts, or back at the detected order; the transform is computed from that final order |
| Ipm.LeftClicksAppend | code/camera_calibration/03_inverse_perspective_mapping/ipm.cpp:42-46 | the clicks recorded from two input runs are those of the first followed by those of the second |
| Ipm.Session.constructor | code/camera_calibration/03_inverse_perspective_mapping/ipm.cpp:34-38 | the initial globals: an empty result, index 0, count 0, not done |
| Ipm.Session.MouseCallback | code/camera_calibration/03_inverse_perspective_mapping/ipm.cpp:40-54 | a non-left-press or a press after done changes nothing; a press with idx past the last row throws and changes nothing; otherwise (x, y) goes into row idx only, idx grows by exactly 1, and done becomes idx >= n; idx never passes the row count |
| Ipm.Session.PickNPoints | code/camera_calibration/03_inverse_perspective_mapping/ipm.cpp:56-75 | resets to a fresh n0 x 2 matrix with idx 0, n = n0 and not done; with at least n0 left presses (n0 > 0) it returns the matrix holding the first n0 presses in click order; with fewer it is still waiting; with n0 = 0 the first press throws |
| Ipm.Session.FindTransform | code/camera_calibration/03_inverse_perspective_mapping/ipm.cpp:86-137 | an unreadable image fails; otherwise the first four corner presses are the source quad and the first two view presses give the origin and far corner of the destination quad |

## Left out

- Homography solve, `warpPerspective`, `undistort`, `hconcat`: external library numerics. A `Transform` only records its source and destination quads.
- Rectification.FindPerspective: the guarantee that the transform maps source corner i onto destination corner i is not stated, because the solve is external.
- Rectification.Rectify: a zero scale is reported as the error `ZeroScale`. The float program instead computes an infinite pixel scale and passes a collapsed destination quad to the solver. Exact float rounding is not modelled: the arithmetic is over `real`.
- Colour and contour pipelines (`cvtColor`, `inRange`, `findContours`, `approxPolyDP`, `blue_rect_calc`, morphology, `processRGB`, `processNumbers`, `cropImage`): library image processing. They are function-typed parameters, or are outside the model.
- Tesseract OCR: external engine.
- File I/O (`loadCoefficients`, `storeAllParameters`, `imread`, `imwrite`): `Calibrate` and `Ipm.Session.FindTransform` return the values that would be stored. An image that failed to load is an empty `Frame`.
- GUI (`imshow`, `namedWindow`, `moveWindow`, `waitKey`, `circle`, `setMouseCallback`, `destroyWindow`), `usleep` and the `std::atomic` flag: display and thread plumbing. The `while (!done)` wait becomes delivering a finite input sequence to the callback until `done`. When the inputs run out first, the model reports `StillWaiting`, where the program would wait forever.
- Part122.RotateRow: modelled only for the 4 x 2 buffer that `main` allocates and passes.
- The uninitialised contents of `rectangular_points` in `main` are the arbitrary initial contents of the array parameter of `Calibrate`.
- The `pixel_scale` that `find_unwarped_img` writes on each loop iteration is overwritten by `findTransform` after the loop, so `Calibrate` returns only the latter.
