/** The whole page as one state object. A click runs every listener it reaches in
    the order the page registered them: the listeners on the clicked element in the
    order of the DOMContentLoaded blocks (app.js:5, 158, 215, 279), then, as the
    click bubbles, the `.dialindicies` section's listener (app.js:207) and last the
    document's listener (app.js:453), which un-pins every logo container when the
    click is outside all of them. Events that are not clicks (hover, typing, file
    choice, pointer moves) reach one component only and are that component's
    methods. */
module Customizer {
  import opened Dom
  import opened Selection
  import opened SectionFlow
  import opened Logos

  class Page {
    const store: SelectionStore
    const flow: SectionFlow
    const logos: LogoOverlays

    ghost predicate Valid()
      reads this, store, flow, logos
    {
      && store.Valid()
      && logos.Valid()
      && FirstIndexOf(store.values.size, "custom") == Some(flow.customSizeOption)
      && FirstIndexOf(store.values.movement, "custom") == Some(flow.customMovementOption)
    }

    /** Page load. The custom buttons are the first size and movement options whose
        value is "custom" (app.js:216, 280); without them the page's set-up throws. */
    constructor (values: PerGroup<seq<string>>, markupPreview: Preview, markupSections: PerSection<Display>,
                 sizeForm: Display, movementForm: Display)
      requires FirstIndexOf(values.size, "custom").Some?
      requires FirstIndexOf(values.movement, "custom").Some?
      ensures Valid() && store.values == values
      ensures forall g :: store.committed.Get(g) == InitialPath(g)
      ensures flow.sections == markupSections.Set(SizeSection, Flex).Set(MovementSection, Hidden).Set(ColorSection, Hidden)
      ensures forall g, k :: 0 <= k < |store.marks.Get(g)| ==>
                (store.marks.Get(g)[k] <==> DefaultIndex(values.Get(g), DefaultSelections.Get(g)) == Some(k))
      ensures store.preview == InitialPreview(values, markupPreview)
      ensures flow.customSizeForm == sizeForm && flow.customMovementForm == movementForm
      ensures flow.diameterInput == None && flow.movementNameInput == ""
      ensures logos.overlays == [] && logos.gestures == []
      ensures logos.thumbnails == PerSlot(Blank, Blank) && logos.inputs == PerSlot(None, None)
    {
      store := new SelectionStore(values, markupPreview);
      flow := new SectionFlow(markupSections, sizeForm, movementForm,
                              FirstIndexOf(values.size, "custom").value,
                              FirstIndexOf(values.movement, "custom").value);
      logos := new LogoOverlays();
    }

    /** A click on option `i` of group `g`: the selection listener (app.js:69-89),
        the section-flow listeners (app.js:183-187, 226-249, 290-313, and app.js:207
        by bubbling for an index option), then the document's listener. */
    method Click(g: Group, i: nat)
      requires Valid() && i < |store.values.Get(g)|
      modifies store, flow, logos
      ensures Valid()
      ensures forall k :: 0 <= k < |store.marks.Get(g)| ==> (store.marks.Get(g)[k] <==> k == i)
      ensures forall h :: h != g ==> store.marks.Get(h) == old(store.marks).Get(h)
      ensures g == Size ==> store.committed == old(store.committed) && store.preview == old(store.preview)
      ensures g != Size ==>
                store.committed == old(store.committed).Set(g, Some(ImagePath(Folder(g), store.values.Get(g)[i])))
      ensures g != Size ==>
                store.preview == old(store.preview).Set(LayerOf(g),
                  old(store.preview).Get(LayerOf(g)).(src := ImagePath(Folder(g), store.values.Get(g)[i])))
      ensures g == Size && i == flow.customSizeOption ==>
                flow.sections == old(flow.sections).Set(MovementSection, Hidden) &&
                flow.customSizeForm == FormToggled(old(flow.customSizeForm))
      ensures g == Size && i != flow.customSizeOption ==>
                flow.sections == old(flow.sections).Set(MovementSection, Flex) && flow.customSizeForm == Hidden
      ensures g == Movement && i == flow.customMovementOption ==>
                flow.sections == old(flow.sections).Set(ColorSection, Hidden) &&
                flow.customMovementForm == FormToggled(old(flow.customMovementForm))
      ensures g == Movement && i != flow.customMovementOption ==>
                flow.sections == old(flow.sections).Set(ColorSection, Flex) && flow.customMovementForm == Hidden
      ensures g != Size && g != Movement ==> flow.sections == old(flow.sections).Set(NextSection(g), Flex)
      ensures g != Size ==> flow.customSizeForm == old(flow.customSizeForm)
      ensures g != Movement ==> flow.customMovementForm == old(flow.customMovementForm)
      ensures flow.diameterInput == old(flow.diameterInput) && flow.movementNameInput == old(flow.movementNameInput)
      ensures |logos.overlays| == |old(logos.overlays)|
      ensures forall k :: 0 <= k < |logos.overlays| ==>
                logos.overlays[k] == old(logos.overlays)[k].(clicked := false, showControls := false)
      ensures logos.gestures == old(logos.gestures) && logos.nextId == old(logos.nextId)
      ensures logos.thumbnails == old(logos.thumbnails) && logos.inputs == old(logos.inputs)
    {
      store.Click(g, i);
      flow.OptionClick(g, i);
      logos.ClickOutside();
    }

    /** A click on a section title (app.js:168-177), then the document's listener. */
    method TitleClick(s: Section)
      requires Valid()
      modifies flow, logos
      ensures Valid()
      ensures flow.sections == old(flow.sections).Set(s, Toggled(old(flow.sections).Get(s)))
      ensures flow.customSizeForm == old(flow.customSizeForm) && flow.customMovementForm == old(flow.customMovementForm)
      ensures flow.diameterInput == old(flow.diameterInput) && flow.movementNameInput == old(flow.movementNameInput)
      ensures |logos.overlays| == |old(logos.overlays)|
      ensures forall k :: 0 <= k < |logos.overlays| ==>
                logos.overlays[k] == old(logos.overlays)[k].(clicked := false, showControls := false)
      ensures logos.gestures == old(logos.gestures) && logos.nextId == old(logos.nextId)
      ensures logos.thumbnails == old(logos.thumbnails) && logos.inputs == old(logos.inputs)
    {
      flow.TitleClick(s);
      logos.ClickOutside();
    }

    /** A click inside the `.dialindicies` section but on no option (app.js:207),
        then the document's listener. */
    method IndexSectionClick()
      requires Valid()
      modifies flow, logos
      ensures Valid()
      ensures flow.sections == old(flow.sections).Set(LogoSection, Flex)
      ensures flow.customSizeForm == old(flow.customSizeForm) && flow.customMovementForm == old(flow.customMovementForm)
      ensures flow.diameterInput == old(flow.diameterInput) && flow.movementNameInput == old(flow.movementNameInput)
      ensures |logos.overlays| == |old(logos.overlays)|
      ensures forall k :: 0 <= k < |logos.overlays| ==>
                logos.overlays[k] == old(logos.overlays)[k].(clicked := false, showControls := false)
      ensures logos.gestures == old(logos.gestures) && logos.nextId == old(logos.nextId)
      ensures logos.thumbnails == old(logos.thumbnails) && logos.inputs == old(logos.inputs)
    {
      flow.IndexSectionClick();
      logos.ClickOutside();
    }

    /** A click on the custom-size Save button (app.js:253-272), then the document's
        listener. */
    method SaveCustomSizeClick() returns (alert: Option<Alert>)
      requires Valid()
      modifies flow, logos
      ensures Valid()
      ensures alert.None? <==> DiameterAccepted(old(flow.diameterInput))
      ensures alert.None? ==>
                flow.sections == old(flow.sections).Set(MovementSection, Flex) &&
                flow.diameterInput == old(flow.diameterInput)
      ensures alert.Some? ==>
                alert == Some(InvalidDiameter) && flow.sections == old(flow.sections) &&
                flow.diameterInput == Some(DiameterReset(old(flow.diameterInput)))
      ensures alert.Some? ==> DiameterAccepted(flow.diameterInput)
      ensures flow.movementNameInput == old(flow.movementNameInput)
      ensures flow.customSizeForm == old(flow.customSizeForm) && flow.customMovementForm == old(flow.customMovementForm)
      ensures |logos.overlays| == |old(logos.overlays)|
      ensures forall k :: 0 <= k < |logos.overlays| ==>
                logos.overlays[k] == old(logos.overlays)[k].(clicked := false, showControls := false)
      ensures logos.gestures == old(logos.gestures) && logos.nextId == old(logos.nextId)
      ensures logos.thumbnails == old(logos.thumbnails) && logos.inputs == old(logos.inputs)
    {
      alert := flow.SaveCustomSize();
      logos.ClickOutside();
    }

    /** A click on the custom-movement Save button (app.js:317-328), then the
        document's listener. */
    method SaveCustomMovementClick() returns (alert: Option<Alert>)
      requires Valid()
      modifies flow, logos
      ensures Valid()
      ensures alert.Some? <==> Trim(old(flow.movementNameInput)) == ""
      ensures alert.Some? <==> IsBlank(old(flow.movementNameInput))
      ensures alert.None? ==> flow.sections == old(flow.sections).Set(ColorSection, Flex)
      ensures alert.Some? ==> alert == Some(InvalidMovementName) && flow.sections == old(flow.sections)
      ensures flow.customSizeForm == old(flow.customSizeForm) && flow.customMovementForm == old(flow.customMovementForm)
      ensures flow.diameterInput == old(flow.diameterInput) && flow.movementNameInput == old(flow.movementNameInput)
      ensures |logos.overlays| == |old(logos.overlays)|
      ensures forall k :: 0 <= k < |logos.overlays| ==>
                logos.overlays[k] == old(logos.overlays)[k].(clicked := false, showControls := false)
      ensures logos.gestures == old(logos.gestures) && logos.nextId == old(logos.nextId)
      ensures logos.thumbnails == old(logos.thumbnails) && logos.inputs == old(logos.inputs)
    {
      alert := flow.SaveCustomMovement();
      logos.ClickOutside();
    }

    /** A click anywhere else outside the logo containers reaches only the
        document's listener (app.js:453-461). */
    method ClickElsewhere()
      requires Valid()
      modifies logos
      ensures Valid()
      ensures |logos.overlays| == |old(logos.overlays)|
      ensures forall k :: 0 <= k < |logos.overlays| ==>
                logos.overlays[k] == old(logos.overlays)[k].(clicked := false, showControls := false)
      ensures logos.gestures == old(logos.gestures) && logos.nextId == old(logos.nextId)
      ensures logos.thumbnails == old(logos.thumbnails) && logos.inputs == old(logos.inputs)
    {
      logos.ClickOutside();
    }
  }
}
