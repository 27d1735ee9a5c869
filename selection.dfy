/** The selection store and preview of app.js:5-129: one committed asset path per
    previewed category, one "selected" marker per option, and the four `<img>`
    layers of the dial preview, driven by hover-enter, hover-leave and click on the
    option elements and by the default selection applied at page load. */
module Selection {
  import opened Dom

  /** The five option groups: the `.dialcolor`, `.dialmovement`, `.dialdesign`,
      `.dialindex` and `.dialsize` elements. */
  datatype Group = Color | Movement | Design | Index | Size

  /** One value per option group. */
  datatype PerGroup<T> = PerGroup(color: T, movement: T, design: T, index: T, size: T)
  {
    function Get(g: Group): T
    {
      match g
      case Color => color
      case Movement => movement
      case Design => design
      case Index => index
      case Size => size
    }

    function Set(g: Group, v: T): (r: PerGroup<T>)
      ensures r.Get(g) == v
      ensures forall h :: h != g ==> r.Get(h) == Get(h)
    {
      match g
      case Color => this.(color := v)
      case Movement => this.(movement := v)
      case Design => this.(design := v)
      case Index => this.(index := v)
      case Size => this.(size := v)
    }
  }

  /** The asset folder each group's handlers are given (app.js:119-128). */
  function Folder(g: Group): string
  {
    match g
    case Color => "dialcolors"
    case Movement => "dialmovements"
    case Design => "dialdesigns"
    case Index => "dialindices"
    case Size => "dialsizes"
  }

  /** The asset path of an option, `./img/<folder>/<value>.png` (app.js:46, 74). */
  function ImagePath(folder: string, value: string): string
  {
    "./img/" + folder + "/" + value + ".png"
  }

  function PathPrefix(folder: string): string
  {
    "./img/" + folder + "/"
  }

  /** Reads the option value back out of an asset path of `folder`; the inverse of
      ImagePath. */
  function ValueOfPath(folder: string, path: string): (r: Option<string>)
    ensures r.Some? ==> ImagePath(folder, r.value) == path
  {
    var prefix := PathPrefix(folder);
    if |path| >= |prefix| + 4 && path[..|prefix|] == prefix && path[|path| - 4..] == ".png"
    then Some(path[|prefix|..|path| - 4])
    else None
  }

  predicate IsImagePath(folder: string, path: string)
  {
    ValueOfPath(folder, path).Some?
  }

  /** Every asset path names the option it was built from. */
  lemma {:induction false} ValueOfImagePath(folder: string, value: string)
    ensures ValueOfPath(folder, ImagePath(folder, value)) == Some(value)
  {
    var path := ImagePath(folder, value);
    var prefix := PathPrefix(folder);
    assert path == prefix + value + ".png";
    assert path[..|prefix|] == prefix;
    assert path[|path| - 4..] == ".png";
    assert path[|prefix|..|path| - 4] == value;
  }

  /** Two options of one folder share an asset path only if they share a value. */
  lemma ImagePathInjective(folder: string, v: string, w: string)
    requires ImagePath(folder, v) == ImagePath(folder, w)
    ensures v == w
  {
    ValueOfImagePath(folder, v);
    ValueOfImagePath(folder, w);
  }

  /** JavaScript truthiness of a string that may be null. */
  predicate Truthy(v: Option<string>)
  {
    v.Some? && v.value != ""
  }

  /** The text an `<img>` gets when its `src` is assigned a value that may be null. */
  function SrcText(v: Option<string>): string
  {
    match v
    case Some(s) => s
    case None => "null"
  }

  /** `defaultSelections` (app.js:20-26); null is None. */
  const DefaultSelections: PerGroup<Option<string>> :=
    PerGroup(Some("white"), Some("none"), Some("none"), Some("none"), None)

  /** The committed paths before any click (app.js:28-31): each previewed
      category holds the asset path of its default value; size keeps none. */
  function InitialPath(g: Group): (r: Option<string>)
    ensures r.None? <==> g == Size
    ensures r.Some? ==> ValueOfPath(Folder(g), r.value) == DefaultSelections.Get(g)
  {
    match g
    case Color => ValueOfImagePath(Folder(Color), "white"); Some(ImagePath(Folder(Color), "white"))
    case Size => None
    case _ =>
      var d := DefaultSelections.Get(g);
      if Truthy(d) then ValueOfImagePath(Folder(g), d.value); Some(ImagePath(Folder(g), d.value)) else None
  }

  /** The invariant of the committed paths: each previewed category holds the
      asset path of some option of its folder, and size holds none. */
  predicate CommittedPaths(c: PerGroup<Option<string>>)
  {
    && c.size == None
    && forall g :: g != Size ==> c.Get(g).Some? && IsImagePath(Folder(g), c.Get(g).value)
  }

  lemma InitialPathsCommitted()
    ensures CommittedPaths(PerGroup(InitialPath(Color), InitialPath(Movement), InitialPath(Design),
                                    InitialPath(Index), InitialPath(Size)))
  {
    ValueOfImagePath(Folder(Color), "white");
    ValueOfImagePath(Folder(Movement), "none");
    ValueOfImagePath(Folder(Design), "none");
    ValueOfImagePath(Folder(Index), "none");
  }

  /** `[...elements].find(el => el.dataset.value === value)` (app.js:95): the first
      option carrying `value`. */
  function FirstIndexOf(s: seq<string>, v: string): (r: Option<nat>)
    ensures r.Some? ==> r.value < |s| && s[r.value] == v
    ensures r.Some? ==> forall k :: 0 <= k < r.value ==> s[k] != v
    ensures r.None? <==> forall k :: 0 <= k < |s| ==> s[k] != v
  {
    if s == [] then None
    else if s[0] == v then Some(0)
    else match FirstIndexOf(s[1..], v)
      case None => None
      case Some(k) => Some(k + 1)
  }

  /** The default option of a group, if the markup has one; a null default matches
      no option, since an option's value is always a string. */
  function DefaultIndex(values: seq<string>, value: Option<string>): (r: Option<nat>)
    ensures r.Some? ==> value.Some? && r.value < |values| && values[r.value] == value.value
  {
    match value
    case None => None
    case Some(v) => FirstIndexOf(values, v)
  }

  /** The `src` that applyDefaultSelection writes for a found default `v`
      (app.js:98-108): none for size, and `""` for a falsy index value. */
  function DefaultWrite(g: Group, v: string): (r: Option<string>)
    ensures r.None? <==> g == Size
    ensures r.Some? && r.value != "" ==> ValueOfPath(Folder(g), r.value) == Some(v)
    ensures r.Some? && r.value == "" ==> g == Index && v == ""
  {
    match g
    case Size => None
    case Index => ValueOfImagePath(Folder(Index), v); Some(if v != "" then ImagePath(Folder(Index), v) else "")
    case _ => ValueOfImagePath(Folder(g), v); Some(ImagePath(Folder(g), v))
  }

  /** A group of `n` options none of which carries the "selected" class. */
  function Unmarked(n: nat): (m: seq<bool>)
    ensures |m| == n && forall k :: 0 <= k < n ==> !m[k]
  {
    if n == 0 then [] else Unmarked(n - 1) + [false]
  }

  /** The "selected" markers applyDefaultSelection leaves on a group of unmarked
      options (app.js:95-97): only the default option, if there is one. */
  function DefaultMarks(values: seq<string>, value: Option<string>): (m: seq<bool>)
    ensures |m| == |values| && AtMostOneMarked(m)
    ensures forall k :: 0 <= k < |m| ==> (m[k] <==> DefaultIndex(values, value) == Some(k))
  {
    match DefaultIndex(values, value)
    case None => Unmarked(|values|)
    case Some(i) => Unmarked(|values|)[i := true]
  }

  /** What applyDefaultSelection (app.js:94-110) makes of the group's layer `img`. */
  function DefaultLayer(img: Image, g: Group, values: seq<string>, value: Option<string>): (r: Image)
    ensures r == img.(src := r.src)
    ensures g == Size || DefaultIndex(values, value).None? ==> r == img
    ensures g != Size && DefaultIndex(values, value).Some? && value.value != "" ==>
              ValueOfPath(Folder(g), r.src) == value
  {
    if DefaultIndex(values, value).None? then img
    else match DefaultWrite(g, value.value)
      case None => img
      case Some(src) => img.(src := src)
  }

  /** For a previewed group and a non-empty default value, the layer loads that
      value's asset exactly when some option carries it. */
  lemma DefaultLayerLoads(img: Image, g: Group, values: seq<string>, v: string)
    requires g != Size && v != ""
    ensures DefaultLayer(img, g, values, Some(v)) ==
              if FirstIndexOf(values, v).Some? then img.(src := ImagePath(Folder(g), v)) else img
  {
  }

  /** The four `<img>` layers of the preview. */
  datatype Layer = Base | MovementLayer | DesignLayer | IndexLayer

  /** The `<img>` each group's handlers are given (app.js:119-128); the size
      options are handed the base image, which they never write. */
  function LayerOf(g: Group): Layer
  {
    match g
    case Color => Base
    case Movement => MovementLayer
    case Design => DesignLayer
    case Index => IndexLayer
    case Size => Base
  }

  datatype Preview = Preview(base: Image, movement: Image, design: Image, index: Image)
  {
    function Get(l: Layer): Image
    {
      match l
      case Base => base
      case MovementLayer => movement
      case DesignLayer => design
      case IndexLayer => index
    }

    function Set(l: Layer, img: Image): (r: Preview)
      ensures r.Get(l) == img
      ensures forall m :: m != l ==> r.Get(m) == Get(m)
    {
      match l
      case Base => this.(base := img)
      case MovementLayer => this.(movement := img)
      case DesignLayer => this.(design := img)
      case IndexLayer => this.(index := img)
    }
  }

  /** What mouse-leave does to the layer of a previewed group (app.js:49-61):
      show the committed path if it is truthy, otherwise for color assign the
      (falsy) committed color, and otherwise hide the layer. */
  function LeftImage(img: Image, g: Group, committed: PerGroup<Option<string>>): (r: Image)
    ensures Truthy(committed.Get(g)) ==> r == Image(committed.Get(g).value, Block)
    ensures r.src == img.src || r.src == SrcText(committed.Get(g))
    ensures r.display == img.display || r.display == Block || r.display == Hidden
    ensures r.display == Block && img.display != Block ==> Truthy(committed.Get(g))
  {
    var selected := committed.Get(g);
    if Truthy(selected) then Image(selected.value, Block)
    else if g == Color then img.(src := SrcText(committed.color))
    else img.(display := Hidden)
  }

  /** While the committed paths keep their invariant, leaving an option always
      shows the committed path: the two fallback branches are unreachable. */
  lemma LeaveRestoresCommitted(img: Image, g: Group, committed: PerGroup<Option<string>>)
    requires CommittedPaths(committed) && g != Size
    ensures LeftImage(img, g, committed) == Image(committed.Get(g).value, Block)
  {
  }

  predicate AtMostOneMarked(m: seq<bool>)
  {
    forall j, k :: 0 <= j < |m| && 0 <= k < |m| && m[j] && m[k] ==> j == k
  }

  /** The committed paths at page load (app.js:28-31). */
  function InitialCommitted(): (c: PerGroup<Option<string>>)
    ensures CommittedPaths(c)
    ensures forall g :: c.Get(g) == InitialPath(g)
  {
    InitialPathsCommitted();
    PerGroup(InitialPath(Color), InitialPath(Movement), InitialPath(Design), InitialPath(Index), InitialPath(Size))
  }

  /** The preview at page load: the white base image (app.js:34), and each layer
      whose group has an option valued "none" loads that option's asset
      (app.js:94-116); a layer whose group has none keeps the markup's image. */
  function InitialPreview(values: PerGroup<seq<string>>, markup: Preview): (p: Preview)
    ensures p.base == markup.base.(src := ImagePath("dialcolors", "white"))
    ensures p.movement ==
              if FirstIndexOf(values.movement, "none").Some?
              then markup.movement.(src := ImagePath("dialmovements", "none")) else markup.movement
    ensures p.design ==
              if FirstIndexOf(values.design, "none").Some?
              then markup.design.(src := ImagePath("dialdesigns", "none")) else markup.design
    ensures p.index ==
              if FirstIndexOf(values.index, "none").Some?
              then markup.index.(src := ImagePath("dialindices", "none")) else markup.index
  {
    var base := markup.base.(src := ImagePath(Folder(Color), "white"));
    DefaultLayerLoads(base, Color, values.color, "white");
    DefaultLayerLoads(markup.movement, Movement, values.movement, "none");
    DefaultLayerLoads(markup.design, Design, values.design, "none");
    DefaultLayerLoads(markup.index, Index, values.index, "none");
    Preview(DefaultLayer(base, Color, values.color, DefaultSelections.color),
            DefaultLayer(markup.movement, Movement, values.movement, DefaultSelections.movement),
            DefaultLayer(markup.design, Design, values.design, DefaultSelections.design),
            DefaultLayer(markup.index, Index, values.index, DefaultSelections.index))
  }

  /** The "selected" markers at page load (app.js:94-97): in each group, at most
      one, on the default option if the markup has one. */
  function InitialMarks(values: PerGroup<seq<string>>): (m: PerGroup<seq<bool>>)
    ensures forall g :: |m.Get(g)| == |values.Get(g)| && AtMostOneMarked(m.Get(g))
    ensures forall g, k :: 0 <= k < |m.Get(g)| ==>
              (m.Get(g)[k] <==> DefaultIndex(values.Get(g), DefaultSelections.Get(g)) == Some(k))
  {
    var color := DefaultMarks(values.color, DefaultSelections.color);
    var movement := DefaultMarks(values.movement, DefaultSelections.movement);
    var design := DefaultMarks(values.design, DefaultSelections.design);
    var index := DefaultMarks(values.index, DefaultSelections.index);
    var size := DefaultMarks(values.size, DefaultSelections.size);
    PerGroup(color, movement, design, index, size)
  }

  class SelectionStore {
    /** The `data-value` of every option, in document order, per group. */
    const values: PerGroup<seq<string>>
    /** Whether each option carries the "selected" class. */
    var marks: PerGroup<seq<bool>>
    /** `selectedDialColor`, `selectedMovement`, `selectedDesign`, `selectedIndex`. */
    var committed: PerGroup<Option<string>>
    var preview: Preview

    ghost predicate Valid()
      reads this
    {
      && (forall g :: |marks.Get(g)| == |values.Get(g)|)
      && (forall g :: AtMostOneMarked(marks.Get(g)))
      && CommittedPaths(committed)
    }

    /** Page load: the committed defaults (app.js:28-31), the base image (app.js:34)
        and the default selection of each group (app.js:94-116). The markup is taken
        to carry no "selected" class. */
    constructor (values: PerGroup<seq<string>>, markup: Preview)
      ensures Valid() && this.values == values
      ensures forall g :: committed.Get(g) == InitialPath(g)
      ensures forall g, k :: 0 <= k < |marks.Get(g)| ==>
                (marks.Get(g)[k] <==> DefaultIndex(values.Get(g), DefaultSelections.Get(g)) == Some(k))
      ensures preview == InitialPreview(values, markup)
    {
      this.values := values;
      committed := InitialCommitted();
      preview := InitialPreview(values, markup);
      marks := InitialMarks(values);
    }

    /** clearSelected (app.js:37-39): drop the "selected" class from every option
        of the group. */
    method ClearSelected(g: Group)
      requires Valid()
      modifies this
      ensures Valid() && committed == old(committed) && preview == old(preview)
      ensures forall k :: 0 <= k < |marks.Get(g)| ==> !marks.Get(g)[k]
      ensures forall h :: h != g ==> marks.Get(h) == old(marks).Get(h)
    {
      var k := 0;
      while k < |marks.Get(g)|
        invariant 0 <= k <= |marks.Get(g)| == |old(marks).Get(g)|
        invariant forall j :: 0 <= j < k ==> !marks.Get(g)[j]
        invariant forall j :: 0 <= j < |marks.Get(g)| && marks.Get(g)[j] ==> old(marks).Get(g)[j]
        invariant forall h :: h != g ==> marks.Get(h) == old(marks).Get(h)
        invariant committed == old(committed) && preview == old(preview)
        invariant Valid()
      {
        marks := marks.Set(g, marks.Get(g)[k := false]);
        k := k + 1;
      }
    }

    /** mouseenter on option `i` (app.js:44-48): its asset shows in the group's
        layer; nothing is committed. Size options have no hover handler. */
    method HoverEnter(g: Group, i: nat)
      requires Valid() && i < |values.Get(g)|
      modifies this
      ensures Valid() && committed == old(committed) && marks == old(marks)
      ensures g == Size ==> preview == old(preview)
      ensures g != Size ==>
                preview == old(preview).Set(LayerOf(g), Image(ImagePath(Folder(g), values.Get(g)[i]), Block))
    {
      if g != Size {
        var value := values.Get(g)[i];
        preview := preview.Set(LayerOf(g), Image(ImagePath(Folder(g), value), Block));
      }
    }

    /** mouseleave (app.js:49-61): the group's layer goes back to the committed
        path and shows, whatever was hovered before. */
    method HoverLeave(g: Group)
      requires Valid()
      modifies this
      ensures Valid() && committed == old(committed) && marks == old(marks)
      ensures g == Size ==> preview == old(preview)
      ensures g != Size ==> preview == old(preview).Set(LayerOf(g), Image(committed.Get(g).value, Block))
    {
      if g != Size {
        var layer := LayerOf(g);
        LeaveRestoresCommitted(preview.Get(layer), g, committed);
        preview := preview.Set(layer, LeftImage(preview.Get(layer), g, committed));
      }
    }

    /** click on option `i` (app.js:69-89): it becomes the only marked option of
        its group; for a previewed group its asset path is committed and loaded
        into that group's layer only. A size click changes only the markers. */
    method Click(g: Group, i: nat)
      requires Valid() && i < |values.Get(g)|
      modifies this
      ensures Valid()
      ensures forall k :: 0 <= k < |marks.Get(g)| ==> (marks.Get(g)[k] <==> k == i)
      ensures forall h :: h != g ==> marks.Get(h) == old(marks).Get(h)
      ensures g == Size ==> committed == old(committed) && preview == old(preview)
      ensures g != Size ==> committed == old(committed).Set(g, Some(ImagePath(Folder(g), values.Get(g)[i])))
      ensures g != Size ==>
                preview == old(preview).Set(LayerOf(g),
                                            old(preview).Get(LayerOf(g)).(src := ImagePath(Folder(g), values.Get(g)[i])))
    {
      ClearSelected(g);
      marks := marks.Set(g, marks.Get(g)[i := true]);
      var value := values.Get(g)[i];
      var newValue := ImagePath(Folder(g), value);
      ValueOfImagePath(Folder(g), value);
      if g != Size {
        committed := committed.Set(g, Some(newValue));
        preview := preview.Set(LayerOf(g), preview.Get(LayerOf(g)).(src := newValue));
      }
    }
  }
}
