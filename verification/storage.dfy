/** The browser's local key-value store, shared by the auth, bakeries and blog stores.
    Values are JSON text; the model keeps the decoded value when the text is a
    well-formed encoding and the text itself when it is not. */
module Storage {
  import opened Wrappers
  import opened Entities
  import opened Calendar

  const USER_KEY := "choukette_user"
  const BAKERY_DATA_KEY := "choukette_bakery_data"
  const BLOG_POSTS_KEY := "choukette_blog_posts"

  /** What `saveBakeryDataToStorage` writes. Every field is optional because a stored
      object may lack any of them. */
  datatype BakerySnapshot = BakerySnapshot(
    currentBakery: Option<Bakery>,
    bakeryMissions: Option<seq<Mission>>,
    bakeryApplications: Option<seq<Application>>,
    monthlyStatsData: Option<seq<MonthEntry<BakeryMonthRow>>>)

  /** The values the stores serialise with `JSON.stringify`. */
  datatype Json =
    | UserJson(user: User)
    | BakeryJson(data: BakerySnapshot)
    | PostsJson(posts: seq<BlogPost>)

  /** A stored string: the encoding of a value, or text that `JSON.parse` rejects. */
  datatype Raw = Encoded(json: Json) | Malformed(text: string)

  /** Only the empty string is falsy; every encoding is non-empty text. */
  predicate Truthy(v: Raw) {
    !(v.Malformed? && v.text == "")
  }

  /** Reading a key and parsing it: nothing usable there, a value that fails to parse, or a value. */
  datatype Parsed<T> = NotFound | Corrupt | Value(value: T)

  /** `const saved = localStorage.getItem(key); if (saved) ...`: the stored value when present and truthy. */
  function Lookup(entries: map<string, Raw>, key: string): (r: Option<Raw>)
    ensures r.Some? <==> key in entries && Truthy(entries[key])
    ensures r.Some? ==> r.value == entries[key]
  {
    if key in entries && Truthy(entries[key]) then Some(entries[key]) else None
  }

  class LocalStorage {
    var entries: map<string, Raw>

    constructor (initial: map<string, Raw>)
      ensures entries == initial
    {
      entries := initial;
    }

    method GetItem(key: string) returns (v: Option<Raw>)
      ensures v.Some? <==> key in entries
      ensures v.Some? ==> v.value == entries[key]
    {
      v := if key in entries then Some(entries[key]) else None;
    }

    method SetItem(key: string, v: Raw)
      modifies this
      ensures entries == old(entries)[key := v]
    {
      entries := entries[key := v];
    }

    method RemoveItem(key: string)
      modifies this
      ensures entries == old(entries) - {key}
    {
      entries := entries - {key};
    }
  }
}
