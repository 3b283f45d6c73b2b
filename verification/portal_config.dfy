/** The portal's stored settings (cosmic-portal-config/src/lib.rs,
    cosmic-portal-config/src/screenshot.rs): where screenshots go, what
    the interactive screenshot selects first, and the background-portal
    default. */
module PortalConfig {
  import opened Wrappers
  import B = Background
  import SR = ScreenshotRect

  /** `ImageSaveLocation`, whose discriminants are 0, 1 and 2. */
  datatype ImageSaveLocation = Clipboard | Pictures | Documents

  const DEFAULT_SAVE_LOCATION: ImageSaveLocation := Pictures

  /** `location as usize`. */
  function LocationIndex(l: ImageSaveLocation): (n: nat)
    ensures n <= 2
  {
    match l
    case Clipboard => 0
    case Pictures => 1
    case Documents => 2
  }

  /** Distinct locations have distinct indices. */
  lemma LocationIndexInjective(l: ImageSaveLocation, m: ImageSaveLocation)
    ensures LocationIndex(l) == LocationIndex(m) ==> l == m
  {
  }

  /** The saved selection kind; an output selection may name the output. */
  datatype Choice = Output(output: Option<string>) | Rectangle | Window

  const DEFAULT_CHOICE: Choice := Output(None)

  /** The screenshot settings, with the rectangle last selected, which the
      dialog starts from when the saved choice is a rectangle. */
  datatype Screenshot = Screenshot(saveLocation: ImageSaveLocation, choice: Choice, lastRectangle: Option<SR.Rect>)

  const DEFAULT_SCREENSHOT: Screenshot := Screenshot(DEFAULT_SAVE_LOCATION, DEFAULT_CHOICE, None)

  /** `Background`: the default answer of NotifyBackground. */
  datatype BackgroundConfig = BackgroundConfig(defaultPerm: B.PermissionDialog)

  datatype Config = Config(screenshot: Screenshot, background: BackgroundConfig)

  const DEFAULT_CONFIG: Config := Config(DEFAULT_SCREENSHOT, BackgroundConfig(B.DEFAULT_PERMISSION_DIALOG))

  /** The defaults: screenshots go to Pictures and select an unnamed
      output; background requests ask the user. */
  lemma Defaults()
    ensures DEFAULT_CONFIG.screenshot.saveLocation == Pictures
    ensures DEFAULT_CONFIG.screenshot.choice == Output(None)
    ensures DEFAULT_CONFIG.screenshot.lastRectangle.None?
    ensures DEFAULT_CONFIG.background.defaultPerm == B.Ask
  {
  }

  /** `From<&mut Choice> for Choice`: the converted choice has the same
      variant and output name, and the output name is taken out of the
      source, which is left as an unnamed output. */
  method TakeChoice(c: Choice) returns (r: Choice, rest: Choice)
    ensures r.Output? <==> c.Output?
    ensures r.Rectangle? <==> c.Rectangle?
    ensures c.Output? ==> r.output == c.output && rest == Output(None)
    ensures !c.Output? ==> rest == c
  {
    match c {
      case Output(name) =>
        r := Output(name);
        rest := Output(None);
      case Rectangle =>
        r := Rectangle;
        rest := c;
      case Window =>
        r := Window;
        rest := c;
    }
  }
}
