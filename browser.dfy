/**
 * The parts of the browser the front end writes to: `localStorage`, the
 * location it navigates to with `window.location.href = …`, and
 * `document.title`.
 */
module Browser {
  const TokenKey: string := "auth_token"
  const UserKey: string := "auth_user"

  class Window {
    /** `localStorage` as a key/value map. */
    var localStorage: map<string, string>
    /** The last value assigned to `window.location.href`. */
    var href: string
    /** `document.title`. */
    var title: string

    constructor(storage: map<string, string>, location: string)
      ensures localStorage == storage && href == location && title == ""
    {
      localStorage := storage;
      href := location;
      title := "";
    }
  }
}
