/** Values shared by every part of the customizer page: an optional value (for
    JavaScript's null and for "no file"), the inline `style.display` of an element,
    an `<img>` element seen as its `src` and its display, and the alerts. */
module Dom {

  datatype Option<+T> = None | Some(value: T)

  /** The inline `style.display` values the page writes or reads:
      "" (nothing set inline), "block", "flex" and "none". */
  datatype Display = Unset | Block | Flex | Hidden

  /** An `<img>` element of the preview: where it loads from and whether it shows. */
  datatype Image = Image(src: string, display: Display)

  /** The page's three `alert()` messages: an invalid diameter (app.js:260), an
      empty movement name (app.js:321) and an unsupported logo file (app.js:439, 448). */
  datatype Alert = InvalidDiameter | InvalidMovementName | InvalidLogoFile
}
