/** The section flow of app.js:158-329: six customization sections whose inline
    display the title clicks toggle and the option clicks reveal, and the two
    custom sub-forms (custom size, custom movement) whose Save buttons validate
    their input before showing the next section. */
module SectionFlow {
  import opened Dom
  import opened Selection

  /** The sections in page order: `.dialsizes`, `.dialmovements`, `.dialcolors`,
      `.dialdesigns`, `.dialindicies` and `.diallogos`. */
  datatype Section = SizeSection | MovementSection | ColorSection | DesignSection | IndexSection | LogoSection

  /** One value per section. */
  datatype PerSection<T> = PerSection(sizes: T, movements: T, colors: T, designs: T, indicies: T, logos: T)
  {
    function Get(s: Section): T
    {
      match s
      case SizeSection => sizes
      case MovementSection => movements
      case ColorSection => colors
      case DesignSection => designs
      case IndexSection => indicies
      case LogoSection => logos
    }

    function Set(s: Section, v: T): (r: PerSection<T>)
      ensures r.Get(s) == v
      ensures forall t :: t != s ==> r.Get(t) == Get(t)
    {
      match s
      case SizeSection => this.(sizes := v)
      case MovementSection => this.(movements := v)
      case ColorSection => this.(colors := v)
      case DesignSection => this.(designs := v)
      case IndexSection => this.(indicies := v)
      case LogoSection => this.(logos := v)
    }
  }

  /** A title click (app.js:172-176): "flex" becomes "none", anything else "flex". */
  function Toggled(d: Display): (r: Display)
    ensures r == Flex <==> d != Flex
    ensures r == Flex || r == Hidden
  {
    if d == Flex then Hidden else Flex
  }

  /** A title toggle always leaves an explicit value, and two toggles restore the
      section exactly when it was explicitly shown or hidden: a section with no
      inline display is shown by the first click and hidden by the second. */
  lemma ToggleTwice(d: Display)
    ensures Toggled(d) == Flex || Toggled(d) == Hidden
    ensures Toggled(Toggled(d)) == d <==> d == Flex || d == Hidden
  {
  }

  /** A click on a custom option toggles its sub-form (app.js:228-233, 292-297); unlike
      the title toggle it tests for "none". */
  function FormToggled(d: Display): (r: Display)
    ensures r == Flex <==> d == Hidden
    ensures r == Flex || r == Hidden
  {
    if d == Hidden then Flex else Hidden
  }

  /** The section holding a group's options. */
  function SectionOf(g: Group): Section
  {
    match g
    case Size => SizeSection
    case Movement => MovementSection
    case Color => ColorSection
    case Design => DesignSection
    case Index => IndexSection
  }

  /** A section's place in the page, from the top. */
  function Rank(s: Section): nat
  {
    match s
    case SizeSection => 0
    case MovementSection => 1
    case ColorSection => 2
    case DesignSection => 3
    case IndexSection => 4
    case LogoSection => 5
  }

  /** The section that scrollToNextSection reveals for a click on an option of a
      group (app.js:203-207). The index options reach the logos section by bubbling:
      app.js:207 registers on the `.dialindicies` section, which holds them. */
  function NextSection(g: Group): (s: Section)
    ensures Rank(s) == Rank(SectionOf(g)) + 1
  {
    match g
    case Size => MovementSection
    case Movement => ColorSection
    case Color => DesignSection
    case Design => IndexSection
    case Index => LogoSection
  }

  /** The custom-size Save test (app.js:259): `!d || d < 20 || d > 50` rejects, so
      the value is accepted exactly when it is a number in [20, 50]; NaN (None) and
      0 are falsy. */
  function DiameterAccepted(d: Option<real>): (ok: bool)
    ensures ok <==> d.Some? && 20.0 <= d.value <= 50.0
  {
    !(d.None? || d.value == 0.0 || d.value < 20.0 || d.value > 50.0)
  }

  /** The value written back into the diameter field on rejection (app.js:263):
      20 below the range, 50 otherwise (NaN compares false with 20). It is always
      accepted by the next Save. */
  function DiameterReset(d: Option<real>): (r: real)
    ensures r == 20.0 || r == 50.0
    ensures DiameterAccepted(Some(r))
    ensures d.None? ==> r == 50.0
  {
    if d.Some? && d.value < 20.0 then 20.0 else 50.0
  }

  function Distance(a: real, b: real): real
  {
    if a < b then b - a else a - b
  }

  /** For a numeric rejected diameter the reset value is the bound of [20, 50]
      nearest to it. */
  lemma ResetIsNearestBound(v: real, b: real)
    requires !DiameterAccepted(Some(v)) && 20.0 <= b <= 50.0
    ensures Distance(v, DiameterReset(Some(v))) <= Distance(v, b)
  {
  }

  /** ECMAScript white space and line terminators, the characters `String.prototype.trim`
      removes. */
  predicate IsJsSpace(c: char)
  {
    c in {'\t', '\n', '\U{000B}', '\U{000C}', '\r', ' ', '\U{00A0}', '\U{1680}',
          '\U{2000}', '\U{2001}', '\U{2002}', '\U{2003}', '\U{2004}', '\U{2005}', '\U{2006}',
          '\U{2007}', '\U{2008}', '\U{2009}', '\U{200A}', '\U{2028}', '\U{2029}', '\U{202F}',
          '\U{205F}', '\U{3000}', '\U{FEFF}'}
  }

  /** Every character of `s` is white space; the empty string is blank. */
  predicate IsBlank(s: string)
  {
    forall k :: 0 <= k < |s| ==> IsJsSpace(s[k])
  }

  /** `s` without its leading white space: a suffix of `s` that is empty or starts
      with a non-space, preceded in `s` only by white space. */
  function TrimStart(s: string): (r: string)
    ensures |r| <= |s| && r == s[|s| - |r|..]
    ensures r == [] || !IsJsSpace(r[0])
    ensures forall k :: 0 <= k < |s| - |r| ==> IsJsSpace(s[k])
  {
    if s != [] && IsJsSpace(s[0]) then TrimStart(s[1..]) else s
  }

  /** `s` without its trailing white space: a prefix of `s` that is empty or ends
      with a non-space, followed in `s` only by white space. */
  function TrimEnd(s: string): (r: string)
    ensures |r| <= |s| && r == s[..|r|]
    ensures r == [] || !IsJsSpace(r[|r| - 1])
    ensures forall k :: |r| <= k < |s| ==> IsJsSpace(s[k])
  {
    if s != [] && IsJsSpace(s[|s| - 1]) then TrimEnd(s[..|s| - 1]) else s
  }

  /** `String.prototype.trim`: an infix of `s` with no white space at either end,
      and `s` itself when `s` has none there. */
  function Trim(s: string): (r: string)
    ensures |r| <= |s|
    ensures r == [] || (!IsJsSpace(r[0]) && !IsJsSpace(r[|r| - 1]))
    ensures s == [] || (!IsJsSpace(s[0]) && !IsJsSpace(s[|s| - 1])) ==> r == s
  {
    TrimEnd(TrimStart(s))
  }

  /** A name trims to the empty string exactly when every character of it is white
      space: the custom-movement Save (app.js:320) rejects exactly those names. */
  lemma TrimEmptyIffBlank(s: string)
    ensures Trim(s) == [] <==> IsBlank(s)
  {
  }

  class SectionFlow {
    /** The first size option whose value is "custom" (app.js:216). */
    const customSizeOption: nat
    /** The first movement option whose value is "custom" (app.js:280). */
    const customMovementOption: nat
    var sections: PerSection<Display>
    /** `.customSizeSection` and `.customMovementSection`. */
    var customSizeForm: Display
    var customMovementForm: Display
    /** The `#dialDiameter` field as `parseFloat` reads it (None for NaN). */
    var diameterInput: Option<real>
    /** The `#customMovement` field. */
    var movementNameInput: string

    /** Page load: the size section opens (app.js:164), the movement and color
        sections close (app.js:223, 287); the other sections and both sub-forms keep
        the display the markup gives them, and both fields start empty. */
    constructor (markup: PerSection<Display>, sizeForm: Display, movementForm: Display,
                 customSizeOption: nat, customMovementOption: nat)
      ensures sections == markup.Set(SizeSection, Flex).Set(MovementSection, Hidden).Set(ColorSection, Hidden)
      ensures customSizeForm == sizeForm && customMovementForm == movementForm
      ensures this.customSizeOption == customSizeOption && this.customMovementOption == customMovementOption
      ensures diameterInput == None && movementNameInput == ""
    {
      this.customSizeOption := customSizeOption;
      this.customMovementOption := customMovementOption;
      sections := markup.Set(SizeSection, Flex).Set(MovementSection, Hidden).Set(ColorSection, Hidden);
      customSizeForm := sizeForm;
      customMovementForm := movementForm;
      diameterInput := None;
      movementNameInput := "";
    }

    /** A click on a section's title (app.js:168-177) toggles that section only. */
    method TitleClick(s: Section)
      modifies this
      ensures sections == old(sections).Set(s, Toggled(old(sections).Get(s)))
      ensures customSizeForm == old(customSizeForm) && customMovementForm == old(customMovementForm)
      ensures diameterInput == old(diameterInput) && movementNameInput == old(movementNameInput)
    {
      if sections.Get(s) == Flex {
        sections := sections.Set(s, Hidden);
      } else {
        sections := sections.Set(s, Flex);
      }
    }

    /** The section-flow listeners of a click on option `i` of a group, in their
        registration order: the reveal of the next section (app.js:183-187), then for
        a size option the custom-size listeners (app.js:226-249) and for a movement
        option the custom-movement listeners (app.js:290-313). A custom option ends
        with its sub-form toggled and the next section hidden, because its own
        listener runs after the reveal; any other size or movement option hides the
        sub-form and shows the next section. */
    method OptionClick(g: Group, i: nat)
      modifies this
      ensures g == Size && i == customSizeOption ==>
                sections == old(sections).Set(MovementSection, Hidden) &&
                customSizeForm == FormToggled(old(customSizeForm))
      ensures g == Size && i != customSizeOption ==>
                sections == old(sections).Set(MovementSection, Flex) && customSizeForm == Hidden
      ensures g == Movement && i == customMovementOption ==>
                sections == old(sections).Set(ColorSection, Hidden) &&
                customMovementForm == FormToggled(old(customMovementForm))
      ensures g == Movement && i != customMovementOption ==>
                sections == old(sections).Set(ColorSection, Flex) && customMovementForm == Hidden
      ensures g != Size && g != Movement ==> sections == old(sections).Set(NextSection(g), Flex)
      ensures g != Size ==> customSizeForm == old(customSizeForm)
      ensures g != Movement ==> customMovementForm == old(customMovementForm)
      ensures diameterInput == old(diameterInput) && movementNameInput == old(movementNameInput)
    {
      // scrollToNextSection
      Reveal(NextSection(g));
      if g == Size {
        // the custom size button's own listener
        if i == customSizeOption {
          customSizeForm := FormToggled(customSizeForm);
          sections := sections.Set(MovementSection, Hidden);
        }
        // the listener every size option carries
        if i != customSizeOption {
          customSizeForm := Hidden;
          sections := sections.Set(MovementSection, Flex);
        }
      } else if g == Movement {
        if i == customMovementOption {
          customMovementForm := FormToggled(customMovementForm);
          sections := sections.Set(ColorSection, Hidden);
        }
        if i != customMovementOption {
          customMovementForm := Hidden;
          sections := sections.Set(ColorSection, Flex);
        }
      }
    }

    /** A click elsewhere inside the `.dialindicies` section reveals the logos
        section (app.js:207). */
    method IndexSectionClick()
      modifies this
      ensures sections == old(sections).Set(LogoSection, Flex)
      ensures customSizeForm == old(customSizeForm) && customMovementForm == old(customMovementForm)
      ensures diameterInput == old(diameterInput) && movementNameInput == old(movementNameInput)
    {
      Reveal(LogoSection);
    }

    /** Ensure a section is shown (app.js:185-187). */
    method Reveal(s: Section)
      modifies this
      ensures sections == old(sections).Set(s, Flex)
      ensures customSizeForm == old(customSizeForm) && customMovementForm == old(customMovementForm)
      ensures diameterInput == old(diameterInput) && movementNameInput == old(movementNameInput)
    {
      if sections.Get(s) != Flex {
        sections := sections.Set(s, Flex);
      }
    }

    /** The user types into the diameter field. */
    method EnterDiameter(d: Option<real>)
      modifies this
      ensures diameterInput == d
      ensures sections == old(sections) && movementNameInput == old(movementNameInput)
      ensures customSizeForm == old(customSizeForm) && customMovementForm == old(customMovementForm)
    {
      diameterInput := d;
    }

    /** The user types into the custom movement field. */
    method EnterMovementName(name: string)
      modifies this
      ensures movementNameInput == name
      ensures sections == old(sections) && diameterInput == old(diameterInput)
      ensures customSizeForm == old(customSizeForm) && customMovementForm == old(customMovementForm)
    {
      movementNameInput := name;
    }

    /** The custom-size Save (app.js:253-272): an accepted diameter shows the
        movement section; a rejected one alerts, leaves every section as it was and
        puts the nearest bound (50 for NaN) into the field. */
    method SaveCustomSize() returns (alert: Option<Alert>)
      modifies this
      ensures alert.None? <==> DiameterAccepted(old(diameterInput))
      ensures alert.None? ==> sections == old(sections).Set(MovementSection, Flex) && diameterInput == old(diameterInput)
      ensures alert.Some? ==> alert == Some(InvalidDiameter) && sections == old(sections) &&
                              diameterInput == Some(DiameterReset(old(diameterInput)))
      ensures alert.Some? ==> DiameterAccepted(diameterInput)
      ensures customSizeForm == old(customSizeForm) && customMovementForm == old(customMovementForm)
      ensures movementNameInput == old(movementNameInput)
    {
      var d := diameterInput;
      if d.None? || d.value == 0.0 || d.value < 20.0 || d.value > 50.0 {
        alert := Some(InvalidDiameter);
        var reset := if d.Some? && d.value < 20.0 then 20.0 else 50.0;
        diameterInput := Some(reset);
        return;
      }
      sections := sections.Set(MovementSection, Flex);
      alert := None;
    }

    /** The custom-movement Save (app.js:317-328): a name that is blank after
        trimming alerts and changes nothing; any other shows the color section. */
    method SaveCustomMovement() returns (alert: Option<Alert>)
      modifies this
      ensures alert.Some? <==> Trim(movementNameInput) == ""
      ensures alert.Some? <==> IsBlank(movementNameInput)
      ensures alert.Some? ==> alert == Some(InvalidMovementName) && sections == old(sections)
      ensures alert.None? ==> sections == old(sections).Set(ColorSection, Flex)
      ensures customSizeForm == old(customSizeForm) && customMovementForm == old(customMovementForm)
      ensures diameterInput == old(diameterInput) && movementNameInput == old(movementNameInput)
    {
      var name := movementNameInput;
      TrimEmptyIffBlank(name);
      if Trim(name) == "" {
        alert := Some(InvalidMovementName);
        return;
      }
      sections := sections.Set(ColorSection, Flex);
      alert := None;
    }
  }
}
