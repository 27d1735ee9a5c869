# Watch-dial customizer: a Dafny model of its event handlers

The customizer is one browser script, `app.js`, that wires a page on which a
customer builds a watch dial. The customer picks a size, movement, colour, design,
index style and logos, and sees each choice on a layered preview image. This
project models the logic inside the script's event handlers as explicit state and
one method per event, and proves what those handlers promise.

- `dom.dfy` (module `Dom`): what the page is made of. It holds an optional value
  (JavaScript `null`, "no file"), an element's inline `style.display`, a preview
  `<img>` as its `src` and display, and the page's three alerts.
- `selection.dfy` (module `Selection`): the selection store and preview
  (app.js:5-129). One committed asset path is kept for each of colour, movement,
  design and index. Each option has a "selected" marker. The four preview layers
  are images. The events are page-load defaults, hover-enter, hover-leave and click.
  Asset paths are `./img/<folder>/<value>.png`, and `ValueOfPath` reads them back.
- `section_flow.dfy` (module `SectionFlow`): the six customization sections
  (app.js:158-329). It models the title toggles, the reveal of the next section on
  an option click, and the custom-size and custom-movement sub-forms with their
  Save validators. It includes JavaScript's `String.prototype.trim`.
- `logos.dfy` (module `Logos`): the logo uploads and overlay containers
  (app.js:333-558). It models the upload test, the thumbnails, appending and
  removing containers, the "clicked"/"show-controls" flags, and dragging with
  clamping to the preview. It also models resizing by eight handles with a minimum
  size. Several resize gestures can be active at once, as several window listeners.
- `customizer.dfy` (module `Customizer`): the page as one object, `Page`. A click
  runs every listener it reaches, in registration order. First come the listeners on
  the clicked element, in the order of the `DOMContentLoaded` blocks at app.js:5,
  158, 215 and 279. Then, as the click bubbles, come the `.dialindicies` section's
  listener and the document's listener, which un-pins every logo container. Events
  that are not clicks reach one component and are that component's methods.

The page's markup is an input to the model. It supplies the `data-value` of every
option, the initial image of each preview layer, the inline display of each section
and sub-form, and the initial box of a new logo container. Layout supplies the size
of the preview canvas, which is a parameter of each drag move.

Some behaviours of the code are easy to misread; the model follows the code:

- The default design and index value `"none"` is a truthy string. So the committed
  design and index paths start as `./img/dialdesigns/none.png` and
  `./img/dialindices/none.png`. A design or index layer loads that path at page load
  when the markup has an option valued "none" in that group; otherwise it keeps the
  markup's `src`. No committed path is ever empty. So mouse-leave always shows the
  committed path, and its hide branch cannot run (`LeaveRestoresCommitted`).
- An unparsable diameter (NaN) is reset to 50, because `NaN < 20` is false.
- A resize never writes a width or height of 50 or less (`> 50` is strict). A move
  that asks for such a size leaves that axis as it was. That is the last size written,
  or the box's size at the press if no move on that axis has been accepted.
- A custom option's own listener runs after the generic reveal. So clicking the
  custom size (or movement) option ends with the next section hidden.
- A custom sub-form toggles on `=== "none"`, while a title toggles on `=== "flex"`.
  A section with no inline display opens on its first title click.
  A sub-form with no inline display is set to `"none"` on its first custom click.
- app.js:207 listens on the `.dialindicies` section, not on the index options. A
  click on an index option reaches it by bubbling, as does a click anywhere in
  that section. Both reveal the logos section.
- A second upload to the same input adds a second container and keeps the first.
  Removing either container empties that input's thumbnail and file.

## Model

| member | source | states |
|---|---|---|
| `Selection.ValueOfPath` | app.js:46 | a value read back from an asset path rebuilds that same path |
| `Selection.ValueOfImagePath` | app.js:73-74 | every `./img/<folder>/<value>.png` path reads back as its value: the path template is invertible |
| `Selection.ImagePathInjective` | app.js:74 | two options of one folder get the same asset path only if their values are equal |
| `Selection.InitialPath` | app.js:28-31 | the committed path of each previewed category names its default value; size has none |
| `Selection.InitialPathsCommitted` | app.js:20-31 | the default paths satisfy the committed-path invariant: every previewed category holds an asset path of its folder, size holds none |
| `Selection.FirstIndexOf` | app.js:95 | `find` returns the first option carrying the value, or none exactly when no option carries it |
| `Selection.DefaultIndex` | app.js:95-96 | a found default option exists and carries the default value; a null default never matches |
| `Selection.DefaultMarks` | app.js:95-97 | after the defaults, exactly the default option of a group is marked "selected" |
| `Selection.DefaultWrite` | app.js:98-108 | a found default writes the asset path naming it; only a size default writes nothing, and only an empty index value writes `""` |
| `Selection.DefaultLayer` | app.js:94-110 | only the layer's `src` changes; it is kept when the group is size or has no default option, and otherwise names the default value |
| `Selection.DefaultLayerLoads` | app.js:95-108 | for a previewed group and a non-empty default, the layer loads that value's asset exactly when some option carries it |
| `Selection.InitialCommitted` | app.js:28-31 | the page-load committed paths are the default paths and satisfy the committed-path invariant |
| `Selection.InitialPreview` | app.js:34-116 | at load the base shows the white dial, and each other layer loads its "none" asset exactly when its group has an option valued "none", keeping the markup's image otherwise |
| `Selection.InitialMarks` | app.js:94-97 | at load each group has at most one "selected" option, exactly the default one when the markup has it |
| `Selection.LeftImage` | app.js:49-61 | mouse-leave shows a truthy committed path with display "block"; otherwise it only assigns the committed value or hides, and never shows a layer that was not shown |
| `Selection.LeaveRestoresCommitted` | app.js:49-61 | while committed paths are asset paths, mouse-leave shows the committed path with display "block"; the colour fallback and the hide branch are unreachable |
| `Selection.SelectionStore.constructor` | app.js:19-116 | page load commits the default paths, shows the white base image, marks the default option of each group and writes its layer when the markup has it (`InitialPreview`) |
| `Selection.SelectionStore.ClearSelected` | app.js:37-39 | no option of the group stays marked; other groups, paths and preview unchanged |
| `Selection.SelectionStore.HoverEnter` | app.js:44-48 | the hovered option's asset path shows in its group's layer with display "block"; committed paths and markers unchanged; size options do nothing |
| `Selection.SelectionStore.HoverLeave` | app.js:49-61 | the group's layer shows the committed path with display "block", whatever was hovered before; nothing else changes |
| `Selection.SelectionStore.Click` | app.js:67-91 | the clicked option is the only marked one of its group; a colour, movement, design or index click commits its asset path and loads it into that group's layer only; a size click changes only the markers |
| `SectionFlow.Toggled` | app.js:172-176 | a title click shows the section exactly when it was not "flex", and always leaves "flex" or "none" |
| `SectionFlow.FormToggled` | app.js:228-233 | a custom click shows the sub-form exactly when it was "none", and always leaves "flex" or "none" |
| `SectionFlow.NextSection` | app.js:203-207 | an option click reveals the section right after its own group's section in page order |
| `SectionFlow.ToggleTwice` | app.js:172-176 | a title click leaves "flex" or "none", and a second click restores the section exactly when it was "flex" or "none" before |
| `SectionFlow.DiameterAccepted` | app.js:259 | the Save test `!d \|\| d < 20 \|\| d > 50` accepts exactly the numbers in [20, 50] |
| `SectionFlow.DiameterReset` | app.js:263 | the value written back is 20 or 50, is accepted by the next Save, and is 50 for NaN |
| `SectionFlow.ResetIsNearestBound` | app.js:262-264 | for a rejected number the value written back is the bound of [20, 50] nearest to it |
| `SectionFlow.TrimStart` | app.js:320 | trimming the front leaves a suffix that is empty or starts with a non-space, after only white space |
| `SectionFlow.TrimEnd` | app.js:320 | trimming the back leaves a prefix that is empty or ends with a non-space, before only white space |
| `SectionFlow.Trim` | app.js:320 | `trim()` is no longer than the name, has no white space at either end, and leaves a name with none there unchanged |
| `SectionFlow.TrimEmptyIffBlank` | app.js:320 | `name.trim()` is empty exactly when every character of the name is ECMAScript white space |
| `SectionFlow.SectionFlow.constructor` | app.js:158-164 | at load the size section is "flex", movement and colour are "none" (app.js:223, 287), other sections and sub-forms keep the markup's display |
| `SectionFlow.SectionFlow.TitleClick` | app.js:168-177 | a title click turns its own section from "flex" to "none" and from anything else to "flex"; nothing else changes |
| `SectionFlow.SectionFlow.Reveal` | app.js:185-187 | the next section is "flex" afterwards; nothing else changes |
| `SectionFlow.SectionFlow.OptionClick` | app.js:181-314 | non-custom size: movement shown, custom-size form hidden; custom size: movement hidden, form toggled; the same for movement and colour; colour, design and index options show the next section |
| `SectionFlow.SectionFlow.IndexSectionClick` | app.js:207 | a click inside the index section shows the logos section |
| `SectionFlow.SectionFlow.EnterDiameter` | app.js:255 | the diameter field holds the parsed value the user typed |
| `SectionFlow.SectionFlow.EnterMovementName` | app.js:318 | the movement-name field holds the text the user typed |
| `SectionFlow.SectionFlow.SaveCustomSize` | app.js:253-272 | succeeds exactly for a diameter in [20, 50] and then shows the movement section; on rejection alerts, leaves every section as it was and writes back 20 or 50, which the next Save accepts |
| `SectionFlow.SectionFlow.SaveCustomMovement` | app.js:317-328 | alerts and changes nothing exactly when the trimmed name is empty, that is when the name is all white space; otherwise shows the colour section |
| `Logos.Accepts` | app.js:436-445 | only a present file of an image type passes, and PNG and SVG files always pass |
| `Logos.Clamp` | app.js:484-485 | `max(0, min(v, hi))` keeps a target in [0, hi], puts one past the far edge on that edge when the element fits, and puts one before the near edge, or any target when the element does not fit, at 0 |
| `Logos.DragStarted` | app.js:468-473 | a press starts the drag and remembers the grip point: box plus offset is the pointer; nothing else changes |
| `Logos.Dragged` | app.js:476-490 | a container not being dragged does not move; a drag move changes only left and top |
| `Logos.DragStaysOnCanvas` | app.js:478-488 | a dragged container's left and top are never negative, it stays inside the right and bottom edges whenever it fits, and an in-bounds target is used unchanged |
| `Logos.PressWithoutMoveKeepsPlace` | app.js:468-488 | pressing a container that lies on the canvas and moving back to the press point leaves it in place |
| `Logos.Resized` | app.js:515-545 | each width and height after a resize move is either the previous one or greater than 50 |
| `Logos.ResizeKeepsOppositeEdge` | app.js:519-538 | a left or top handle keeps the opposite edge where it was at the press (`left + width == startLeft + startWidth`), or leaves that axis alone |
| `Logos.ResizeFromFarEdgesKeepsOrigin` | app.js:526-544 | right, bottom and bottom-right handles never change left or top |
| `Logos.ResizeAxesIndependent` | app.js:519-543 | for every handle and each axis separately: a size asked for and above 50 is written as start size plus or minus the pointer's move, with the left or top edge following the pointer only for a left or top handle; otherwise that axis's size and position stay as they were |
| `Logos.ResizeTarget` | app.js:515-545 | one resizeHandler changes only its own container, and only its box, to the resized box |
| `Logos.ApplyResizes` | app.js:515-552 | the active resizeHandlers keep the number of containers and leave every container no gesture targets unchanged |
| `Logos.ResizesKeepMinimum` | app.js:515-553 | with any number of active resize gestures, a move changes only boxes and every width and height is the previous one or above 50 |
| `Logos.LogoOverlays.constructor` | app.js:378-383 | no container is attached, no gesture is active, thumbnails are empty and inputs hold no file |
| `Logos.LogoOverlays.Upload` | app.js:341-450 | a file is accepted exactly when it is present and its type is exactly image/png or image/svg+xml; an accepted file shows its thumbnail and appends one new container, keeping every earlier container; any other choice shows the notice, alerts and adds nothing |
| `Logos.LogoOverlays.Remove` | app.js:398-402 | only that container is detached, the others keep their order, and the thumbnail and file of the input that created it are emptied |
| `Logos.LogoOverlays.MouseEnter` | app.js:412-414 | that container shows its controls |
| `Logos.LogoOverlays.MouseLeave` | app.js:417-421 | that container hides its controls unless it is clicked |
| `Logos.LogoOverlays.ContainerClick` | app.js:424-429 | that container becomes clicked and shows its controls; the document's listener does nothing for a click inside |
| `Logos.LogoOverlays.ClickOutside` | app.js:453-461 | every container loses both "clicked" and "show-controls" |
| `Logos.LogoOverlays.DragStart` | app.js:468-474 | that container is being dragged and remembers the pointer's offset from its top-left corner |
| `Logos.LogoOverlays.DragMove` | app.js:476-490 | each dragged container follows the pointer clamped to the canvas, never left of or above it and inside it whenever it fits; the others do not move |
| `Logos.LogoOverlays.ResizeStart` | app.js:505-513 | a gesture snapshotting the pointer and the container's box is added |
| `Logos.LogoOverlays.ResizeMove` | app.js:515-552 | every active gesture resizes its container in turn; only boxes change and no size of 50 or less is written |
| `Logos.LogoOverlays.MouseUp` | app.js:492-550 | every drag ends and every resize gesture's listeners are removed |
| `Customizer.Page.constructor` | app.js:215-226 | the custom buttons are the first options valued "custom"; the page starts with the default paths, markers and preview, the load-time sections, empty text fields, no logo container, blank thumbnails and no files |
| `Customizer.Page.Click` | app.js:67-314 | an option click marks, commits and previews as the selection listener does, then moves the sections and sub-forms as the flow listeners do in registration order, then un-pins every logo container (app.js:453-461); text fields, gestures, thumbnails and files stay as they were |
| `Customizer.Page.TitleClick` | app.js:168-177 | the title's section toggles and every logo container is un-pinned; sub-forms, text fields, gestures, thumbnails and files stay as they were |
| `Customizer.Page.IndexSectionClick` | app.js:207 | the logos section is shown and every logo container is un-pinned; everything else stays as it was |
| `Customizer.Page.SaveCustomSizeClick` | app.js:253-272 | the Save shows the movement section exactly for a diameter in [20, 50]; a rejected one alerts and is replaced by its reset value; every logo container is un-pinned and the rest stays |
| `Customizer.Page.SaveCustomMovementClick` | app.js:317-328 | the Save alerts exactly for the name typed before the click trimming to empty (all white space), and otherwise shows the colour section; every logo container is un-pinned and the rest stays |
| `Customizer.Page.ClickElsewhere` | app.js:453-461 | a click outside every container un-pins all of them; nothing else changes |

## Left out

- Scrolling is not modelled. This covers `scrollIntoView`, `scrollTo` with the 25% viewport offset (app.js:190-197, 230, 247, 271, 294, 311, 327) and the sticky preview on window scroll (app.js:142-152). They depend on layout and floating-point viewport arithmetic.
- File reading is not modelled (app.js:344-351, 386-431). An accepted upload completes at once; the data URL, the thumbnail's HTML and the order of concurrent reads are not modelled.
- `parseFloat` and `alert` are not modelled. The diameter arrives parsed as `Option<real>`, with None for NaN. Infinity is not representable. An alert is a returned value.
- The comments field and the shape file are read by the custom-size Save but never used (app.js:256-257). They are not modelled.
- Cursor styles are not modelled (app.js:472, 494, 504).
- Listener registration, `querySelector`, `classList` and `createElement` are not modelled. They become fields, identities and method calls. The unused `sections` list (app.js:161) is not modelled.
- Window listeners of a removed container keep firing on the detached element, and its remove button's click reaches the detached container. Neither is visible on the page, so neither is modelled.
- The interplay of drag and resize is not modelled. A handle's mousedown also bubbles to the container's drag mousedown (app.js:505 and 468). One mousemove reaches the drag listeners and the resize listeners together. Here `DragMove` and `ResizeMove` are separate events.
- Geometry is in whole pixels. The element's bounding-rect width and its `offsetWidth` are both taken as its box width, so borders and transforms are not modelled. The canvas size and a new container's initial box come from layout and the stylesheet, and are parameters.
- Inline display values other than "", "block", "flex" and "none" are not modelled. The markup is taken to carry no "selected" class, both text fields start empty and both thumbnails start blank.
- Resize handles are a datatype. `handle.includes("left")` and the other tests are written as the set of handle names containing that word.
- Customizer.Page.constructor: requires a size option and a movement option valued "custom". Without one, app.js:226 or app.js:290 throws during set-up, after app.js:223 or app.js:287 has already hidden the next section. The listeners registered after that point, the non-custom option listeners and that Save button, are then missing. The model does not cover a page in that state.
