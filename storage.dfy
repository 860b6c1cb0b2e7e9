/**
 * The bearer token mirrored under `supabase.auth.token` in the browser's
 * local storage. The API client and the authentication hook both write it.
 */
module Storage {
  import opened Wrappers

  class TokenStore {
    /** The stored value; `None` when the key is absent. */
    var token: Option<string>

    constructor (initial: Option<string>)
      ensures token == initial
    {
      token := initial;
    }

    /** `localStorage.setItem(key, t)`. */
    method Set(t: string)
      modifies this
      ensures token == Some(t)
    {
      token := Some(t);
    }

    /** `localStorage.removeItem(key)`. */
    method Remove()
      modifies this
      ensures token == None
    {
      token := None;
    }

    /** `localStorage.getItem(key)`. */
    method Get() returns (t: Option<string>)
      ensures t == token
    {
      t := token;
    }
  }
}
