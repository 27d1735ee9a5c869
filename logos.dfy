/** The logo uploads and overlays of app.js:333-558: the two upload inputs with
    their thumbnails, and the draggable, resizable overlay containers placed on the
    dial preview, with their control flags, their remove button, and the drag and
    resize gestures. */
module Logos {
  import opened Dom

  /** The two upload inputs, `#upper-logo` and `#lower-logo`. */
  datatype Slot = Upper | Lower

  datatype PerSlot<T> = PerSlot(upper: T, lower: T)
  {
    function Get(s: Slot): T
    {
      match s
      case Upper => upper
      case Lower => lower
    }

    function Set(s: Slot, v: T): (r: PerSlot<T>)
      ensures r.Get(s) == v
      ensures forall t :: t != s ==> r.Get(t) == Get(t)
    {
      match s
      case Upper => this.(upper := v)
      case Lower => this.(lower := v)
    }
  }

  /** A chosen file, seen through its MIME type; its bytes are not modelled. */
  datatype File = File(mimeType: string)

  /** The upload test (app.js:343, 360, 436, 445): a file is present and its type
      is exactly "image/png" or "image/svg+xml". Only images pass, and no file
      at all is refused. */
  function Accepts(file: Option<File>): (ok: bool)
    ensures ok ==> file.Some? && |file.value.mimeType| > 6 && file.value.mimeType[..6] == "image/"
    ensures file.Some? && file.value.mimeType == "image/png" ==> ok
    ensures file.Some? && file.value.mimeType == "image/svg+xml" ==> ok
  {
    file.Some? && (file.value.mimeType == "image/png" || file.value.mimeType == "image/svg+xml")
  }

  /** The thumbnail area of an input: empty, the uploaded picture, or the
      "Please upload a valid PNG or SVG file." notice (app.js:353, 370). */
  datatype Thumbnail = Blank | Picture | InvalidFileNotice

  /** An element's `left`, `top`, `width` and `height` in pixels. */
  datatype Box = Box(left: int, top: int, width: int, height: int)

  /** A `.resizable-image-container` attached to the preview: an identity, the
      input whose upload created it, its box, its "clicked" and "show-controls"
      classes, and the drag closure's `isDragging`, `offsetX` and `offsetY`. */
  datatype Overlay = Overlay(id: nat, slot: Slot, box: Box, clicked: bool, showControls: bool,
                             dragging: bool, offsetX: int, offsetY: int)

  /** The container a fresh upload creates (app.js:387-429): no class set, no drag. */
  function NewOverlay(id: nat, slot: Slot, box: Box): Overlay
  {
    Overlay(id, slot, box, false, false, false, 0, 0)
  }

  /** The first attached container with identity `id`. */
  function Find(os: seq<Overlay>, id: nat): (r: Option<nat>)
    ensures r.Some? ==> r.value < |os| && os[r.value].id == id
    ensures r.None? <==> forall k :: 0 <= k < |os| ==> os[k].id != id
  {
    if os == [] then None
    else if os[0].id == id then Some(0)
    else match Find(os[1..], id)
      case None => None
      case Some(k) => Some(k + 1)
  }

  /** `Math.max(0, Math.min(v, hi))` (app.js:484-485). */
  /** A target inside [0, hi] is kept; one past the far edge, when the element
      fits (0 <= hi), lands on that edge; one before the near edge, or any target
      when the element does not fit (hi <= 0), lands on 0. */
  function Clamp(v: int, hi: int): (r: int)
    ensures 0 <= r
    ensures 0 <= hi ==> r <= hi
    ensures 0 <= v <= hi ==> r == v
    ensures 0 <= hi <= v ==> r == hi
    ensures v <= 0 || hi <= 0 ==> r == 0
  {
    var m := if v < hi then v else hi;
    if 0 < m then m else 0
  }

  /** mousedown on a container (app.js:468-473): the drag starts, remembering
      where in the container the pointer took hold. */
  function DragStarted(o: Overlay, clientX: int, clientY: int): (r: Overlay)
    ensures r.dragging && r == o.(dragging := true, offsetX := r.offsetX, offsetY := r.offsetY)
    ensures r.box.left + r.offsetX == clientX && r.box.top + r.offsetY == clientY
  {
    o.(dragging := true, offsetX := clientX - o.box.left, offsetY := clientY - o.box.top)
  }

  /** The container's window mousemove listener (app.js:476-490) for a canvas of
      `canvasWidth` by `canvasHeight`. */
  function Dragged(o: Overlay, clientX: int, clientY: int, canvasWidth: int, canvasHeight: int): (r: Overlay)
    ensures !o.dragging ==> r == o
    ensures r == o.(box := r.box)
    ensures r.box.width == o.box.width && r.box.height == o.box.height
  {
    if o.dragging then
      o.(box := o.box.(left := Clamp(clientX - o.offsetX, canvasWidth - o.box.width),
                       top := Clamp(clientY - o.offsetY, canvasHeight - o.box.height)))
    else o
  }

  /** A dragged container never leaves the canvas: its left and top are never
      negative, and it ends inside the far edges whenever it fits; a target inside
      the canvas is taken as it is. */
  lemma DragStaysOnCanvas(o: Overlay, clientX: int, clientY: int, canvasWidth: int, canvasHeight: int)
    requires o.dragging
    ensures var b := Dragged(o, clientX, clientY, canvasWidth, canvasHeight).box;
      && 0 <= b.left && 0 <= b.top
      && (o.box.width <= canvasWidth ==> b.left + b.width <= canvasWidth)
      && (o.box.height <= canvasHeight ==> b.top + b.height <= canvasHeight)
      && (0 <= clientX - o.offsetX <= canvasWidth - o.box.width ==> b.left == clientX - o.offsetX)
      && (0 <= clientY - o.offsetY <= canvasHeight - o.box.height ==> b.top == clientY - o.offsetY)
  {
  }

  /** Pressing on a container that lies on the canvas and moving the pointer back to
      where it was pressed leaves the container where it was. */
  lemma PressWithoutMoveKeepsPlace(o: Overlay, clientX: int, clientY: int, canvasWidth: int, canvasHeight: int)
    requires 0 <= o.box.left && o.box.left + o.box.width <= canvasWidth
    requires 0 <= o.box.top && o.box.top + o.box.height <= canvasHeight
    ensures Dragged(DragStarted(o, clientX, clientY), clientX, clientY, canvasWidth, canvasHeight).box == o.box
  {
  }

  /** The eight resize handles (app.js:499). */
  datatype Handle = Top | Bottom | Left | Right | TopLeft | TopRight | BottomLeft | BottomRight

  /** `handle.includes("left")`, "right", "top" and "bottom" (app.js:519-539). */
  predicate GrabsLeft(h: Handle) { h == Left || h == TopLeft || h == BottomLeft }
  predicate GrabsRight(h: Handle) { h == Right || h == TopRight || h == BottomRight }
  predicate GrabsTop(h: Handle) { h == Top || h == TopLeft || h == TopRight }
  predicate GrabsBottom(h: Handle) { h == Bottom || h == BottomLeft || h == BottomRight }

  /** The smallest size a resize leaves alone: a new size must exceed it. */
  const MinSize: int := 50

  /** The snapshot a handle's mousedown takes (app.js:508-513) for the container
      with identity `target`. */
  datatype ResizeGesture = ResizeGesture(target: nat, handle: Handle, startX: int, startY: int, start: Box)

  /** One call of resizeHandler (app.js:515-545) on the container's current box. */
  function Resized(cur: Box, g: ResizeGesture, clientX: int, clientY: int): (b: Box)
    ensures b.width == cur.width || b.width > MinSize
    ensures b.height == cur.height || b.height > MinSize
  {
    var dx := clientX - g.startX;
    var dy := clientY - g.startY;
    var b1 := if GrabsLeft(g.handle) && g.start.width - dx > MinSize
              then cur.(width := g.start.width - dx, left := g.start.left + dx) else cur;
    var b2 := if GrabsRight(g.handle) && g.start.width + dx > MinSize
              then b1.(width := g.start.width + dx) else b1;
    var b3 := if GrabsTop(g.handle) && g.start.height - dy > MinSize
              then b2.(height := g.start.height - dy, top := g.start.top + dy) else b2;
    if GrabsBottom(g.handle) && g.start.height + dy > MinSize
    then b3.(height := g.start.height + dy) else b3
  }

  /** Resizing from a left or top handle moves that edge and keeps the opposite edge
      where it was when the handle was pressed, or leaves the axis alone. */
  lemma ResizeKeepsOppositeEdge(cur: Box, g: ResizeGesture, clientX: int, clientY: int)
    ensures var b := Resized(cur, g, clientX, clientY);
      && (GrabsLeft(g.handle) ==>
            b.left + b.width == g.start.left + g.start.width || (b.left == cur.left && b.width == cur.width))
      && (GrabsTop(g.handle) ==>
            b.top + b.height == g.start.top + g.start.height || (b.top == cur.top && b.height == cur.height))
  {
  }

  /** Right, bottom and bottom-right handles never move the container. */
  lemma ResizeFromFarEdgesKeepsOrigin(cur: Box, g: ResizeGesture, clientX: int, clientY: int)
    requires !GrabsLeft(g.handle) && !GrabsTop(g.handle)
    ensures Resized(cur, g, clientX, clientY).left == cur.left
    ensures Resized(cur, g, clientX, clientY).top == cur.top
  {
  }

  /** The width a resize move asks for on the horizontal axis, if the handle
      grabs a left or right edge. */
  function WidthAsked(g: ResizeGesture, clientX: int): Option<int>
  {
    var dx := clientX - g.startX;
    if GrabsLeft(g.handle) then Some(g.start.width - dx)
    else if GrabsRight(g.handle) then Some(g.start.width + dx)
    else None
  }

  /** The height a resize move asks for on the vertical axis, if the handle grabs
      a top or bottom edge. */
  function HeightAsked(g: ResizeGesture, clientY: int): Option<int>
  {
    var dy := clientY - g.startY;
    if GrabsTop(g.handle) then Some(g.start.height - dy)
    else if GrabsBottom(g.handle) then Some(g.start.height + dy)
    else None
  }

  /** For every handle the two axes resize independently. On each axis, a size
      that is asked for and exceeds 50 is taken, with the left (top) edge moved by
      the pointer for a left (top) handle and kept otherwise; a size that is not
      asked for, or is at most 50, leaves that axis's size and position as they
      were. */
  lemma ResizeAxesIndependent(cur: Box, g: ResizeGesture, clientX: int, clientY: int)
    ensures var b := Resized(cur, g, clientX, clientY);
      var w := WidthAsked(g, clientX);
      var h := HeightAsked(g, clientY);
      && (w.Some? && w.value > MinSize ==>
            b.width == w.value &&
            b.left == (if GrabsLeft(g.handle) then g.start.left + (clientX - g.startX) else cur.left))
      && (!(w.Some? && w.value > MinSize) ==> b.width == cur.width && b.left == cur.left)
      && (h.Some? && h.value > MinSize ==>
            b.height == h.value &&
            b.top == (if GrabsTop(g.handle) then g.start.top + (clientY - g.startY) else cur.top))
      && (!(h.Some? && h.value > MinSize) ==> b.height == cur.height && b.top == cur.top)
  {
  }

  /** The gesture's resizeHandler applied to its container, if it is still attached. */
  function ResizeTarget(os: seq<Overlay>, g: ResizeGesture, clientX: int, clientY: int): (r: seq<Overlay>)
    ensures |r| == |os|
    ensures forall k :: 0 <= k < |os| ==> r[k] == os[k].(box := r[k].box)
    ensures forall k :: 0 <= k < |os| && os[k].id != g.target ==> r[k] == os[k]
    ensures forall k :: 0 <= k < |os| && os[k].id == g.target ==> r[k].box == Resized(os[k].box, g, clientX, clientY)
  {
    seq(|os|, k requires 0 <= k < |os| =>
      if os[k].id == g.target then os[k].(box := Resized(os[k].box, g, clientX, clientY)) else os[k])
  }

  /** Every active resizeHandler, in the order the window listeners were added. */
  function ApplyResizes(os: seq<Overlay>, gs: seq<ResizeGesture>, clientX: int, clientY: int): (r: seq<Overlay>)
    ensures |r| == |os|
    ensures forall k :: 0 <= k < |os| && (forall j :: 0 <= j < |gs| ==> gs[j].target != os[k].id) ==> r[k] == os[k]
    decreases |gs|
  {
    if gs == [] then os else ApplyResizes(ResizeTarget(os, gs[0], clientX, clientY), gs[1..], clientX, clientY)
  }

  /** However many resize gestures are active, a mousemove changes only boxes, and
      every width and height it leaves is the one before or one above 50. */
  lemma {:induction false} ResizesKeepMinimum(os: seq<Overlay>, gs: seq<ResizeGesture>, clientX: int, clientY: int)
    ensures var r := ApplyResizes(os, gs, clientX, clientY);
      && |r| == |os|
      && forall k :: 0 <= k < |os| ==>
           && r[k] == os[k].(box := r[k].box)
           && (r[k].box.width == os[k].box.width || r[k].box.width > MinSize)
           && (r[k].box.height == os[k].box.height || r[k].box.height > MinSize)
    decreases |gs|
  {
    if gs != [] {
      var step := ResizeTarget(os, gs[0], clientX, clientY);
      ResizesKeepMinimum(step, gs[1..], clientX, clientY);
    }
  }

  class LogoOverlays {
    /** The containers attached to `.dialPreview`, in document order. */
    var overlays: seq<Overlay>
    /** The identity the next container gets. */
    var nextId: nat
    /** The resizeHandler/stopResizeHandler pairs registered on the window. */
    var gestures: seq<ResizeGesture>
    var thumbnails: PerSlot<Thumbnail>
    /** The file each input holds. */
    var inputs: PerSlot<Option<File>>

    /** Identities are distinct and below `nextId`, and a clicked container always
        shows its controls. */
    ghost predicate Valid()
      reads this
    {
      && (forall k :: 0 <= k < |overlays| ==> overlays[k].id < nextId)
      && (forall j, k :: 0 <= j < k < |overlays| ==> overlays[j].id != overlays[k].id)
      && (forall k :: 0 <= k < |overlays| && overlays[k].clicked ==> overlays[k].showControls)
    }

    constructor ()
      ensures Valid()
      ensures overlays == [] && gestures == []
      ensures thumbnails == PerSlot(Blank, Blank) && inputs == PerSlot(None, None)
    {
      overlays := [];
      nextId := 0;
      gestures := [];
      thumbnails := PerSlot(Blank, Blank);
      inputs := PerSlot(None, None);
    }

    /** A change of an upload input, running its two change listeners in order:
        the thumbnail (app.js:341-355) and the overlay (app.js:434-441). An accepted
        file shows its thumbnail and appends one new container at the initial box
        the stylesheet gives it, keeping every earlier container, also those of the
        same input; any other choice, no file included, shows the notice and alerts.
        The file reads complete at once. */
    method Upload(slot: Slot, file: Option<File>, initial: Box) returns (alert: Option<Alert>)
      requires Valid()
      modifies this
      ensures Valid()
      ensures alert.None? <==> Accepts(file)
      ensures inputs == old(inputs).Set(slot, file) && gestures == old(gestures)
      ensures nextId == if Accepts(file) then old(nextId) + 1 else old(nextId)
      ensures Accepts(file) ==>
                && thumbnails == old(thumbnails).Set(slot, Picture)
                && overlays == old(overlays) + [NewOverlay(old(nextId), slot, initial)]
      ensures !Accepts(file) ==>
                && alert == Some(InvalidLogoFile)
                && thumbnails == old(thumbnails).Set(slot, InvalidFileNotice)
                && overlays == old(overlays)
    {
      inputs := inputs.Set(slot, file);
      if Accepts(file) {
        thumbnails := thumbnails.Set(slot, Picture);
      } else {
        thumbnails := thumbnails.Set(slot, InvalidFileNotice);
      }
      if Accepts(file) {
        overlays := overlays + [NewOverlay(nextId, slot, initial)];
        nextId := nextId + 1;
        alert := None;
      } else {
        alert := Some(InvalidLogoFile);
      }
    }

    /** The remove button of container `id` (app.js:398-402): that container alone
        is detached, and the thumbnail and input of the upload that created it are
        emptied. */
    method Remove(id: nat)
      requires Valid()
      modifies this
      ensures Valid() && gestures == old(gestures) && nextId == old(nextId)
      ensures Find(old(overlays), id).None? ==>
                overlays == old(overlays) && thumbnails == old(thumbnails) && inputs == old(inputs)
      ensures Find(old(overlays), id).Some? ==>
                var k := Find(old(overlays), id).value;
                && overlays == old(overlays)[..k] + old(overlays)[k + 1..]
                && thumbnails == old(thumbnails).Set(old(overlays)[k].slot, Blank)
                && inputs == old(inputs).Set(old(overlays)[k].slot, None)
      ensures forall k :: 0 <= k < |overlays| ==> overlays[k].id != id
    {
      var found := Find(overlays, id);
      if found.Some? {
        var k := found.value;
        var slot := overlays[k].slot;
        overlays := overlays[..k] + overlays[k + 1..];
        thumbnails := thumbnails.Set(slot, Blank);
        inputs := inputs.Set(slot, None);
      }
    }

    /** mouseenter on container `id` (app.js:412-414) shows its controls. */
    method MouseEnter(id: nat)
      requires Valid()
      modifies this
      ensures Valid() && |overlays| == |old(overlays)|
      ensures forall k :: 0 <= k < |overlays| ==>
                overlays[k] == if old(overlays)[k].id == id then old(overlays)[k].(showControls := true) else old(overlays)[k]
      ensures gestures == old(gestures) && thumbnails == old(thumbnails) && inputs == old(inputs)
      ensures nextId == old(nextId)
    {
      var found := Find(overlays, id);
      if found.Some? {
        var k := found.value;
        overlays := overlays[k := overlays[k].(showControls := true)];
      }
    }

    /** mouseleave from container `id` (app.js:417-421) hides its controls unless it
        is clicked. */
    method MouseLeave(id: nat)
      requires Valid()
      modifies this
      ensures Valid() && |overlays| == |old(overlays)|
      ensures forall k :: 0 <= k < |overlays| ==>
                overlays[k] == if old(overlays)[k].id == id && !old(overlays)[k].clicked
                               then old(overlays)[k].(showControls := false) else old(overlays)[k]
      ensures gestures == old(gestures) && thumbnails == old(thumbnails) && inputs == old(inputs)
      ensures nextId == old(nextId)
    {
      var found := Find(overlays, id);
      if found.Some? {
        var k := found.value;
        if !overlays[k].clicked {
          overlays := overlays[k := overlays[k].(showControls := false)];
        }
      }
    }

    /** A click on container `id` (app.js:424-429) pins its controls. The click still
        reaches the document, whose listener finds it inside a container and does
        nothing (app.js:454-455). */
    method ContainerClick(id: nat)
      requires Valid()
      modifies this
      ensures Valid() && |overlays| == |old(overlays)|
      ensures forall k :: 0 <= k < |overlays| ==>
                overlays[k] == if old(overlays)[k].id == id
                               then old(overlays)[k].(clicked := true, showControls := true) else old(overlays)[k]
      ensures gestures == old(gestures) && thumbnails == old(thumbnails) && inputs == old(inputs)
      ensures nextId == old(nextId)
    {
      var found := Find(overlays, id);
      if found.Some? {
        var k := found.value;
        overlays := overlays[k := overlays[k].(clicked := true, showControls := true)];
      }
    }

    /** The document's click listener for a click outside every container
        (app.js:453-461): every container loses both classes. */
    method ClickOutside()
      requires Valid()
      modifies this
      ensures Valid() && |overlays| == |old(overlays)|
      ensures forall k :: 0 <= k < |overlays| ==>
                overlays[k] == old(overlays)[k].(clicked := false, showControls := false)
      ensures gestures == old(gestures) && thumbnails == old(thumbnails) && inputs == old(inputs)
      ensures nextId == old(nextId)
    {
      var k := 0;
      while k < |overlays|
        invariant 0 <= k <= |overlays| == |old(overlays)|
        invariant forall j :: 0 <= j < k ==> overlays[j] == old(overlays)[j].(clicked := false, showControls := false)
        invariant forall j :: k <= j < |overlays| ==> overlays[j] == old(overlays)[j]
        invariant gestures == old(gestures) && thumbnails == old(thumbnails) && inputs == old(inputs)
        invariant nextId == old(nextId)
      {
        overlays := overlays[k := overlays[k].(clicked := false, showControls := false)];
        k := k + 1;
      }
    }

    /** mousedown on container `id` (app.js:468-474) starts its drag. */
    method DragStart(id: nat, clientX: int, clientY: int)
      requires Valid()
      modifies this
      ensures Valid() && |overlays| == |old(overlays)|
      ensures forall k :: 0 <= k < |overlays| ==>
                overlays[k] == if old(overlays)[k].id == id
                               then DragStarted(old(overlays)[k], clientX, clientY) else old(overlays)[k]
      ensures gestures == old(gestures) && thumbnails == old(thumbnails) && inputs == old(inputs)
      ensures nextId == old(nextId)
    {
      var found := Find(overlays, id);
      if found.Some? {
        var k := found.value;
        overlays := overlays[k := DragStarted(overlays[k], clientX, clientY)];
      }
    }

    /** A window mousemove reaching every container's drag listener (app.js:476-490):
        each container being dragged follows the pointer, clamped to the canvas; the
        others do not move. */
    method DragMove(clientX: int, clientY: int, canvasWidth: int, canvasHeight: int)
      requires Valid()
      modifies this
      ensures Valid() && |overlays| == |old(overlays)|
      ensures forall k :: 0 <= k < |overlays| ==>
                overlays[k] == Dragged(old(overlays)[k], clientX, clientY, canvasWidth, canvasHeight)
      ensures forall k :: 0 <= k < |overlays| && old(overlays)[k].dragging ==>
                && 0 <= overlays[k].box.left && 0 <= overlays[k].box.top
                && (overlays[k].box.width <= canvasWidth ==> overlays[k].box.left + overlays[k].box.width <= canvasWidth)
                && (overlays[k].box.height <= canvasHeight ==> overlays[k].box.top + overlays[k].box.height <= canvasHeight)
      ensures forall k :: 0 <= k < |overlays| && !old(overlays)[k].dragging ==> overlays[k] == old(overlays)[k]
      ensures gestures == old(gestures) && thumbnails == old(thumbnails) && inputs == old(inputs)
      ensures nextId == old(nextId)
    {
      var k := 0;
      while k < |overlays|
        invariant 0 <= k <= |overlays| == |old(overlays)|
        invariant forall j :: 0 <= j < k ==> overlays[j] == Dragged(old(overlays)[j], clientX, clientY, canvasWidth, canvasHeight)
        invariant forall j :: k <= j < |overlays| ==> overlays[j] == old(overlays)[j]
        invariant gestures == old(gestures) && thumbnails == old(thumbnails) && inputs == old(inputs)
        invariant nextId == old(nextId)
      {
        overlays := overlays[k := Dragged(overlays[k], clientX, clientY, canvasWidth, canvasHeight)];
        k := k + 1;
      }
      forall k | 0 <= k < |overlays| && old(overlays)[k].dragging
        ensures 0 <= overlays[k].box.left && 0 <= overlays[k].box.top
        ensures overlays[k].box.width <= canvasWidth ==> overlays[k].box.left + overlays[k].box.width <= canvasWidth
        ensures overlays[k].box.height <= canvasHeight ==> overlays[k].box.top + overlays[k].box.height <= canvasHeight
      {
        DragStaysOnCanvas(old(overlays)[k], clientX, clientY, canvasWidth, canvasHeight);
      }
    }

    /** mousedown on one of container `id`'s handles (app.js:505-553) snapshots the
        pointer and the box and registers the gesture's window listeners. */
    method ResizeStart(id: nat, handle: Handle, clientX: int, clientY: int)
      requires Valid()
      modifies this
      ensures Valid() && overlays == old(overlays)
      ensures Find(overlays, id).None? ==> gestures == old(gestures)
      ensures Find(overlays, id).Some? ==>
                gestures == old(gestures) + [ResizeGesture(id, handle, clientX, clientY, overlays[Find(overlays, id).value].box)]
      ensures thumbnails == old(thumbnails) && inputs == old(inputs) && nextId == old(nextId)
    {
      var found := Find(overlays, id);
      if found.Some? {
        gestures := gestures + [ResizeGesture(id, handle, clientX, clientY, overlays[found.value].box)];
      }
    }

    /** A window mousemove reaching every active resizeHandler in turn: only boxes
        change, and no width or height is set to 50 or less. */
    method ResizeMove(clientX: int, clientY: int)
      requires Valid()
      modifies this
      ensures Valid()
      ensures overlays == ApplyResizes(old(overlays), gestures, clientX, clientY)
      ensures |overlays| == |old(overlays)|
      ensures forall k :: 0 <= k < |overlays| ==>
                && overlays[k] == old(overlays)[k].(box := overlays[k].box)
                && (overlays[k].box.width == old(overlays)[k].box.width || overlays[k].box.width > MinSize)
                && (overlays[k].box.height == old(overlays)[k].box.height || overlays[k].box.height > MinSize)
      ensures gestures == old(gestures) && thumbnails == old(thumbnails) && inputs == old(inputs)
      ensures nextId == old(nextId)
    {
      var i := 0;
      while i < |gestures|
        invariant 0 <= i <= |gestures|
        invariant ApplyResizes(overlays, gestures[i..], clientX, clientY) ==
                  ApplyResizes(old(overlays), gestures, clientX, clientY)
        invariant gestures == old(gestures) && thumbnails == old(thumbnails) && inputs == old(inputs)
        invariant nextId == old(nextId)
      {
        assert gestures[i..][1..] == gestures[i + 1..];
        overlays := ResizeTarget(overlays, gestures[i], clientX, clientY);
        i := i + 1;
      }
      ResizesKeepMinimum(old(overlays), gestures, clientX, clientY);
    }

    /** A window mouseup: every drag ends (app.js:492-495) and every resize gesture
        removes its listeners (app.js:547-550). */
    method MouseUp()
      requires Valid()
      modifies this
      ensures Valid() && |overlays| == |old(overlays)| && gestures == []
      ensures forall k :: 0 <= k < |overlays| ==> overlays[k] == old(overlays)[k].(dragging := false)
      ensures thumbnails == old(thumbnails) && inputs == old(inputs) && nextId == old(nextId)
    {
      var k := 0;
      while k < |overlays|
        invariant 0 <= k <= |overlays| == |old(overlays)|
        invariant forall j :: 0 <= j < k ==> overlays[j] == old(overlays)[j].(dragging := false)
        invariant forall j :: k <= j < |overlays| ==> overlays[j] == old(overlays)[j]
        invariant thumbnails == old(thumbnails) && inputs == old(inputs) && nextId == old(nextId)
      {
        overlays := overlays[k := overlays[k].(dragging := false)];
        k := k + 1;
      }
      gestures := [];
    }
  }
}
