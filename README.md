# Document viewer interaction model

This project models the interaction state machine of the `PdfViewer` React
component (`src/PdfViewer.js`). The component shows a preview card. Clicking
the card opens a full-screen modal viewer with zoom buttons, a download
button and a close button. In the compact ("mobile") layout, the modal can
also be swiped down to dismiss it.

The model has three modules:

- `Zoom` (`zoom.dfy`) holds the pure rules:
  - the 19-entry zoom table;
  - the compact-layout classifier (`width < 768`);
  - the seed index chosen from the window width;
  - the clamped zoom-in and zoom-out updates;
  - the predicates that disable the two zoom buttons.
- `FileName` (`download_name.dfy`) holds JavaScript's `split('/')` on a string
  and the `pop()` of its last piece. Together these give the suggested
  download filename.
- `PdfViewer` (`viewer.dfy`) holds the following:
  - the drag-to-dismiss rule;
  - the class `Viewer`, whose fields are the component's state hooks
    (`isViewerOpen`, `isMobile`, `zoomLevelIndex`);
  - the ghost field `bodyOverflow`, which stands for
    `document.body.style.overflow`;
  - the ghost field `resizeListening`, which says whether the resize listener
    is registered;
  - the field `effectOpen`, which holds the value of `isViewerOpen` that the
    open-state effect last ran with.

  `Commit` models what React does after a render. If `isViewerOpen` differs
  from `effectOpen`, it runs the previous effect's cleanup and then the effect
  again. The window width the effect reads is a parameter. The drag offset
  and the document URL are parameters too.

Two consequences of the code are worth stating plainly:

- The seed indices 5, 4, 3 and 1 read 67%, 50%, 33% and 20% from the table at
  `src/PdfViewer.js:16`. So a 1300-pixel window opens at 50%, and one zoom-out
  shows 33%.
- The resize listener (`src/PdfViewer.js:24-29`) only reclassifies `isMobile`.
  The zoom index is reseeded only when the open-state effect runs: on mount,
  and on every change of `isViewerOpen`, closing included. `WindowResized`
  leaves the zoom index unchanged, and `Commit` reseeds it.

`HandleDragEnd` does not require an open viewer in the compact layout.
Framer-motion only delivers drag events to the open modal in the compact
layout, but the handler's own `isMobile` condition (`src/PdfViewer.js:117`)
already rules out the wide case, so the model states the handler for every
state.

## Model

| member | source | states |
|---|---|---|
| `Zoom.IsCompact` | src/PdfViewer.js:25 | the layout is compact (`width < 768`) exactly when the seed index is 1, and wide exactly when the seed index is 3, 4 or 5 |
| `Zoom.SeedIndex` | src/PdfViewer.js:45-51 | the seed is always a valid index into the zoom table; it is 1 exactly when the layout is compact (width < 768) and between 3 and 5 otherwise |
| `Zoom.SeedPercent` | src/PdfViewer.js:45-51 | the seeded percentage is 67 for width ≥ 1920, 50 for 1024 ≤ width < 1920, 33 for 768 ≤ width < 1024 and 20 otherwise |
| `Zoom.SeedMonotone` | src/PdfViewer.js:45-51 | a wider window never gets a smaller seed index or a smaller seeded percentage |
| `Zoom.ZoomedIn` | src/PdfViewer.js:63-65 | zoom-in stays inside the table; it does nothing at the last index (18) and adds exactly one everywhere else |
| `Zoom.ZoomedOut` | src/PdfViewer.js:67-69 | zoom-out stays inside the table; it does nothing at index 0 and subtracts exactly one everywhere else |
| `Zoom.ZoomInDisabled` | src/PdfViewer.js:182 | the zoom-in button's `disabled` test: the index is the last one (18); `ZoomInDisabledIffNoOp` proves what it means |
| `Zoom.ZoomOutDisabled` | src/PdfViewer.js:173 | the zoom-out button's `disabled` test: the index is 0; `ZoomOutDisabledIffNoOp` proves what it means |
| `Zoom.ZoomInDisabledIffNoOp` | src/PdfViewer.js:182 | the zoom-in button is disabled exactly when zooming in would leave the index unchanged |
| `Zoom.ZoomOutDisabledIffNoOp` | src/PdfViewer.js:173 | the zoom-out button is disabled exactly when zooming out would leave the index unchanged |
| `Zoom.ZoomOutUndoesZoomIn` | src/PdfViewer.js:63-69 | below the last index, zoom-out after zoom-in returns the original index |
| `Zoom.ZoomInUndoesZoomOut` | src/PdfViewer.js:63-69 | above index 0, zoom-in after zoom-out returns the original index |
| `Zoom.ZoomStepsStrictlyAscending` | src/PdfViewer.js:16 | every entry of the zoom table is smaller than every entry after it |
| `Zoom.ZoomInNeverLowersScale` | src/PdfViewer.js:63-65 | zoom-in never lowers the displayed percentage, and raises it strictly below the last index |
| `Zoom.ZoomOutNeverRaisesScale` | src/PdfViewer.js:67-69 | zoom-out never raises the displayed percentage, and lowers it strictly above index 0 |
| `Zoom.RepeatedZoomIn` | src/PdfViewer.js:63-65 | n zoom-in clicks from index i reach min(i + n, 18) |
| `Zoom.RepeatedZoomOut` | src/PdfViewer.js:67-69 | n zoom-out clicks from index i reach max(i - n, 0) |
| `FileName.Split` | src/PdfViewer.js:59 | `split('/')` returns at least one piece; no piece contains the separator; joining the pieces with the separator gives the input back |
| `FileName.DownloadName` | src/PdfViewer.js:59 | the last piece of the split contains no '/'; it is a suffix of the URL, and it is either the whole URL or the text just after a '/' |
| `FileName.WholeUrlWithoutSlash` | src/PdfViewer.js:59 | a URL without '/' is suggested whole |
| `FileName.EmptyAfterTrailingSlash` | src/PdfViewer.js:59 | a URL ending in '/' gives an empty filename |
| `FileName.NameAfterLastSlash` | src/PdfViewer.js:59 | for `prefix + "/" + name`, where `name` has no '/', the filename is `name` |
| `FileName.SampleFileName` | src/PdfViewer.js:59 | the URL `https://x/sample.pdf` gives the filename `sample.pdf` |
| `PdfViewer.ShouldDismiss` | src/PdfViewer.js:117 | the drag-release test: the offset exceeds 100 and the layout is compact; the lemmas below state its threshold, layout and monotonicity properties |
| `PdfViewer.JustPastThresholdDismisses` | src/PdfViewer.js:117 | in the compact layout a release at a fractional offset just above 100 (100.5) dismisses the viewer |
| `PdfViewer.ThresholdItselfDoesNotDismiss` | src/PdfViewer.js:116-120 | a drag released at an offset of exactly 100 never dismisses the viewer |
| `PdfViewer.WideLayoutNeverDismisses` | src/PdfViewer.js:116-120 | in the wide layout, no offset dismisses the viewer |
| `PdfViewer.DismissMonotone` | src/PdfViewer.js:117 | if a drag dismisses the viewer, any longer drag in the same layout dismisses it too |
| `PdfViewer.Viewer.Mount` | src/PdfViewer.js:10-43 | after mount and the first effect run: closed, `isMobile` is `width < 768`, the zoom index is the seed, scrolling is not locked, and the resize listener is registered |
| `PdfViewer.Viewer.UpdateDeviceType` | src/PdfViewer.js:24-26 | `isMobile` becomes `width < 768`; nothing else changes |
| `PdfViewer.Viewer.SetInitialScale` | src/PdfViewer.js:45-51 | the zoom index becomes the seed, showing 67, 50, 33 or 20 percent by breakpoint |
| `PdfViewer.Viewer.RunEffect` | src/PdfViewer.js:23-37 | the effect reclassifies the layout, reseeds the zoom, registers the listener, and sets overflow to hidden exactly when open |
| `PdfViewer.Viewer.EffectCleanup` | src/PdfViewer.js:39-42 | the cleanup always leaves overflow at auto and the listener removed |
| `PdfViewer.Viewer.Commit` | src/PdfViewer.js:23-43 | after the effect phase of a render, overflow is hidden exactly when the viewer is open; nothing changes when the open state did not change, and otherwise the layout is reclassified and the zoom reseeded |
| `PdfViewer.Viewer.WindowResized` | src/PdfViewer.js:29 | a resize reclassifies `isMobile` and leaves the zoom index, the open state and the scroll lock unchanged |
| `PdfViewer.Viewer.Unmount` | src/PdfViewer.js:39-42 | on teardown, overflow is auto and the listener is removed, whether the viewer was open or not |
| `PdfViewer.Viewer.HandleCardClick` | src/PdfViewer.js:53 | opens the viewer and keeps the mounted-viewer invariant `Valid()`; `isMobile`, the zoom index and the scroll lock are untouched |
| `PdfViewer.Viewer.HandleCloseViewer` | src/PdfViewer.js:54 | closes the viewer and keeps `Valid()`; `isMobile`, the zoom index and the scroll lock are untouched |
| `PdfViewer.Viewer.HandleZoomIn` | src/PdfViewer.js:63-65 | keeps `Valid()`; the index becomes the clamped zoom-in of the previous one and the percentage does not drop |
| `PdfViewer.Viewer.HandleZoomOut` | src/PdfViewer.js:67-69 | keeps `Valid()`; the index becomes the clamped zoom-out of the previous one and the percentage does not rise |
| `PdfViewer.Viewer.HandleDragEnd` | src/PdfViewer.js:116-120 | keeps `Valid()`; the viewer is open afterwards exactly when it was open before and the drag did not dismiss it (an offset over 100 in the compact layout) |
| `PdfViewer.Viewer.HandleDownload` | src/PdfViewer.js:56-61 | the link points at the document URL and suggests the '/'-free last segment of that URL as the filename |
| `PdfViewer.OpenFromCard` | src/PdfViewer.js:23-53 | a card click followed by the effect leaves the viewer open with scrolling locked; a viewer that was closed is reclassified and reseeded, and one that was already open keeps its state |
| `PdfViewer.ReleaseDrag` | src/PdfViewer.js:116-120 | releasing a drag, then running the effect, closes the viewer and releases scrolling exactly when the drag dismisses it; otherwise layout and zoom are kept |
| `PdfViewer.DesktopOpenThenZoomOut` | src/PdfViewer.js:45-69 | client: a 1300-pixel window opened from the card shows 50%, one zoom-out shows 33%, and downloading `https://x/sample.pdf` suggests `sample.pdf` |
| `PdfViewer.CompactSwipeToDismiss` | src/PdfViewer.js:112-120 | client: in a 400-pixel window, a release at 100 keeps the viewer open and locked, a release at 150 closes it and releases scrolling, and unmounting an open viewer releases scrolling |

## Left out

- JSX rendering, the Tailwind class strings and the `framer-motion` animation
  (`initial`, `animate`, `exit`, `transition`, `dragConstraints`) are presentation only.
- The `@react-pdf-viewer` `Worker` and `Viewer`, the page-navigation plugin
  (`jumpToNextPage`, `jumpToPreviousPage`, `CurrentPageLabel`, `NumberOfPages`)
  and the theme plugin are foreign library calls. This code adds no bounds
  logic to them.
- `defaultScale = zoomSteps[i] / 100` is a floating-point division. The model
  keeps the integer percentage `ZoomSteps[i]`.
- `pageLayout` (`transformSize`, `transformPage`) is DOM mutation and size
  arithmetic on the rendering library's objects.
- The anchor element that `handleDownload` creates, and its `click()`, are
  browser I/O. `HandleDownload` returns the `href` and the `download` values
  it would set.
- `window.addEventListener` and `window.removeEventListener` are modelled
  only as the ghost flag `resizeListening`. `bodyOverflow` is a ghost field
  standing for the page style.
- The window width is an integer, as `window.innerWidth` is in the browser.
  The drag offset is a `real`, so fractional releases such as 100.5 are
  covered; the rounding of floating-point numbers is not modelled.
- Before the first effect runs, `zoomLevelIndex` is `null`. The model starts
  from `Mount`, which includes the first effect run. Because of this,
  the handlers require `Valid()`, which includes a valid zoom index: no zoom
  button exists before that run.
- React's render scheduling and batching are reduced to explicit calls to
  `Commit` after state-changing handlers.
- `src/App.js` and `tailwind.config.js` are not part of this model. They only
  compose the component with constant props and configure styling.
