/** The page-level globals the client components share: `localStorage`, a
    map from key to string, and `window.location`, of which the model keeps
    the last URL assigned (an assignment starts a full navigation). */
module Browser {
  import opened Common

  class Window {
    var storage: map<string, string>
    var location: Option<string>

    constructor (storage: map<string, string>)
      ensures this.storage == storage && location == None
    {
      this.storage := storage;
      location := None;
    }

    /** `localStorage.getItem(key)`: the stored string, or `null`. */
    function GetItem(key: string): (r: Option<string>)
      reads this
      ensures r.Some? <==> key in storage
      ensures r.Some? ==> r.value == storage[key]
    {
      Get(storage, key)
    }

    /** `localStorage.setItem(key, value)` with a string value. */
    method SetItem(key: string, value: string)
      modifies this
      ensures storage == old(storage)[key := value]
      ensures location == old(location)
    {
      storage := storage[key := value];
    }

    /** `localStorage.removeItem(key)`; removing a missing key is harmless. */
    method RemoveItem(key: string)
      modifies this
      ensures storage == old(storage) - {key}
      ensures location == old(location)
    {
      storage := storage - {key};
    }

    /** `window.location = url`. */
    method Navigate(url: string)
      modifies this
      ensures location == Some(url)
      ensures storage == old(storage)
    {
      location := Some(url);
    }
  }
}
