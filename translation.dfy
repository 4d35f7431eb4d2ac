/**
 * The one piece of the translation library's state the core reads and
 * writes: the active language of the shared i18n instance.
 */
module Translation {

  class I18n {
    var language: string

    /** The instance starts with the language the device detection chose. */
    constructor (detected: string)
      ensures language == detected
    {
      language := detected;
    }

    /** `i18n.changeLanguage(lng)`: the active language becomes lng at once. */
    method ChangeLanguage(lng: string)
      modifies this
      ensures language == lng
    {
      language := lng;
    }
  }
}
