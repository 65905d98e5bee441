/**
 * The browser's `localStorage`, reduced to the three keys the client uses:
 * `token`, `user` and `theme`. An absent key is `None`. The `user` entry is
 * held as the record it serialises, so `JSON.stringify` followed by
 * `JSON.parse` is the identity here.
 */
module Storage {
  import opened Common
  import opened Types

  class LocalStorage {
    var token: Option<string>
    var user: Option<User>
    var theme: Option<string>

    constructor (token: Option<string>, user: Option<User>, theme: Option<string>)
      ensures this.token == token && this.user == user && this.theme == theme
    {
      this.token := token;
      this.user := user;
      this.theme := theme;
    }
  }
}
