/**
 * The site-list bookkeeping of chAIt's main window, apart from Qt: which
 * parsed sites files are accepted, the two default sites, URL normalisation,
 * and the rule that decides whether a new site is added.
 */
module Sites {
  import opened Json

  /** What the attempt to read `sites.json` gave: the four paths of `load_sites`. */
  datatype ReadOutcome =
    | FileMissing            // the file does not exist
    | DecodeFailed           // json.load raised JSONDecodeError
    | ReadFailed             // any other exception while opening or reading
    | Parsed(value: Value)   // json.load returned this value

  /** The two sites used whenever the file cannot be used, in tab order. */
  function DefaultSites(): seq<Value> {
    [SiteEntry("ChatGPT", "https://chatgpt.com"),
     SiteEntry("AI Studio", "https://aistudio.google.com")]
  }

  /**
   * The shape scan of `load_sites`: every element must be an object holding
   * both keys. It walks the list front to back and stops at the first
   * element that fails.
   */
  function AllSiteObjects(items: seq<Value>): (b: bool)
    ensures b <==> forall i :: 0 <= i < |items| ==> IsSiteObject(items[i])
  {
    if items == [] then true
    else IsSiteObject(items[0]) && AllSiteObjects(items[1..])
  }

  /** The shape check of `load_sites`: a list of objects with both keys. */
  predicate IsSiteList(v: Value) {
    v.Array? && AllSiteObjects(v.items)
  }

  predicate Accepted(file: ReadOutcome) {
    file.Parsed? && IsSiteList(file.value)
  }

  /**
   * `load_sites`: the parsed list itself when it has the right shape (extra
   * keys, and values of any JSON type under `name` and `url`, are kept),
   * otherwise the defaults.
   */
  function LoadSites(file: ReadOutcome): (sites: seq<Value>)
    ensures AllSiteObjects(sites)
    ensures Accepted(file) ==> sites == file.value.items
    ensures !Accepted(file) ==> sites == DefaultSites()
  {
    match file
    case Parsed(v) => if IsSiteList(v) then v.items else DefaultSites()
    case _ => DefaultSites()
  }

  /**
   * A parsed value comes back unchanged exactly when it is a list of site
   * objects; anything else is replaced.
   */
  lemma LoadKeepsExactlySiteLists(v: Value)
    ensures Array(LoadSites(Parsed(v))) == v <==> IsSiteList(v)
  {
    if !IsSiteList(v) && v.Array? {
      var i :| 0 <= i < |v.items| && !IsSiteObject(v.items[i]);
      assert v.items != DefaultSites();
    }
  }

  /** A missing file, a decode error or any other read error all give the same two sites, in this order. */
  lemma LoadFailureGivesDefaults(file: ReadOutcome)
    requires file.FileMissing? || file.DecodeFailed? || file.ReadFailed?
    ensures |LoadSites(file)| == 2
    ensures LoadSites(file)[0].members == map["name" := Str("ChatGPT"), "url" := Str("https://chatgpt.com")]
    ensures LoadSites(file)[1].members == map["name" := Str("AI Studio"), "url" := Str("https://aistudio.google.com")]
  {
  }

  /**
   * How the write of `save_sites` ended. The file is opened for writing,
   * which empties it, and then the whole list is dumped into it.
   */
  datatype WriteOutcome =
    | OpenFailed    // opening the file raised, so it was not touched
    | WriteFailed   // the open truncated the file and the dump or the close then raised
    | Written       // the whole list was written

  /** What `sites.json` holds as far as this run of the program is concerned. */
  datatype SiteFile =
    | Untouched              // not written during this run: whatever was there at start-up
    | Holds(sites: seq<Value>)  // the complete dump of this list
    | Damaged                // empty, or a cut-off beginning of a dump

  /** The file after a save of `sites` that ended with `w`. */
  function AfterSave(before: SiteFile, w: WriteOutcome, sites: seq<Value>): (after: SiteFile)
    ensures w == OpenFailed ==> after == before
    ensures w == WriteFailed ==> after == Damaged
    ensures w == Written ==> after == Holds(sites)
  {
    match w
    case OpenFailed => before
    case WriteFailed => Damaged
    case Written => Holds(sites)
  }

  /**
   * What the next start-up can read from the file. A complete dump parses
   * back to the same list. An empty file or a cut-off beginning of a dump is
   * never a whole JSON value, so the parser raises a decode error, or a
   * read error when the cut falls inside a multi-byte character. An
   * untouched file can give anything.
   */
  predicate ReadsAs(file: SiteFile, r: ReadOutcome) {
    match file
    case Untouched => true
    case Holds(sites) => r == Parsed(Array(sites))
    case Damaged => r == DecodeFailed || r == ReadFailed
  }

  /**
   * The next start-up after a save: a completed write loads back exactly the
   * saved list; a write that failed after the open leaves a file that loads
   * as the two defaults, so every site in the list is lost.
   */
  lemma LoadAfterSave(before: SiteFile, w: WriteOutcome, sites: seq<Value>, r: ReadOutcome)
    requires AllSiteObjects(sites)
    requires w != OpenFailed
    requires ReadsAs(AfterSave(before, w, sites), r)
    ensures LoadSites(r) == (if w == Written then sites else DefaultSites())
  {
  }

  const HttpScheme: string := "http://"
  const HttpsScheme: string := "https://"

  /** The URL already begins with one of the two schemes, compared case-sensitively. */
  predicate HasScheme(url: string) {
    HttpScheme <= url || HttpsScheme <= url
  }

  /** The add rule's URL fix-up: a URL without a scheme gets `https://` in front. */
  function NormaliseUrl(url: string): (r: string)
    ensures HasScheme(r)
    ensures HasScheme(url) ==> r == url
    ensures !HasScheme(url) ==> r == HttpsScheme + url
  {
    if !HasScheme(url) then HttpsScheme + url else url
  }

  /** Normalising a normalised URL changes nothing. */
  lemma NormaliseIdempotent(url: string)
    ensures NormaliseUrl(NormaliseUrl(url)) == NormaliseUrl(url)
  {
  }

  /**
   * A stored entry blocks the new site when its name or its URL equals the
   * new one. A stored value equals a string only if it is that same string.
   */
  predicate Collides(site: Value, name: string, url: string)
    requires IsSiteObject(site)
  {
    Name(site) == Str(name) || Url(site) == Str(url)
  }

  /** The `any(...)` duplicate scan over the current list. */
  function AnyCollision(sites: seq<Value>, name: string, url: string): (b: bool)
    requires AllSiteObjects(sites)
    ensures b <==> exists i :: 0 <= i < |sites| && Collides(sites[i], name, url)
  {
    if sites == [] then false
    else Collides(sites[0], name, url) || AnyCollision(sites[1..], name, url)
  }

  /** Why an add was refused, or that it went through. */
  datatype AddCode = EmptyName | EmptyUrl | Duplicate | Added

  datatype AddOutcome = AddOutcome(code: AddCode, sites: seq<Value>)

  /**
   * The rule of `add_site_tab` on already-stripped inputs: refuse an empty
   * name, then an empty URL, normalise the URL, refuse a site whose name or
   * normalised URL equals a stored one, and otherwise append the new entry.
   * The stored URLs are compared as they are, not normalised.
   */
  function AddSite(sites: seq<Value>, name: string, url: string): (r: AddOutcome)
    requires AllSiteObjects(sites)
    ensures r.code == EmptyName <==> name == []
    ensures r.code == EmptyUrl <==> name != [] && url == []
    ensures r.code == Duplicate <==>
              && name != [] && url != []
              && exists i :: 0 <= i < |sites| && Collides(sites[i], name, NormaliseUrl(url))
    ensures AllSiteObjects(r.sites)
    ensures |r.sites| == |sites| + (if r.code == Added then 1 else 0)
    ensures r.sites[..|sites|] == sites
    ensures r.code == Added ==> r.sites[|sites|] == SiteEntry(name, NormaliseUrl(url))
    ensures r.code == Added ==> HasScheme(r.sites[|sites|].members["url"].s)
  {
    if name == [] then AddOutcome(EmptyName, sites)
    else if url == [] then AddOutcome(EmptyUrl, sites)
    else
      var u := NormaliseUrl(url);
      if AnyCollision(sites, name, u) then AddOutcome(Duplicate, sites)
      else AddOutcome(Added, sites + [SiteEntry(name, u)])
  }

  /** No two entries share a name value, and no two share a URL value. */
  predicate Distinct(sites: seq<Value>)
    requires AllSiteObjects(sites)
  {
    forall i, j :: 0 <= i < j < |sites| ==>
      Name(sites[i]) != Name(sites[j]) && Url(sites[i]) != Url(sites[j])
  }

  /** The defaults are distinct, so a list that starts from them stays distinct. */
  lemma DefaultsDistinct()
    ensures AllSiteObjects(DefaultSites()) && Distinct(DefaultSites())
  {
  }

  /** An add never makes two entries share a name or a URL. */
  lemma AddPreservesDistinct(sites: seq<Value>, name: string, url: string)
    requires AllSiteObjects(sites) && Distinct(sites)
    ensures Distinct(AddSite(sites, name, url).sites)
  {
    var r := AddSite(sites, name, url);
    if r.code == Added {
      var n := |sites|;
      forall i, j | 0 <= i < j < |r.sites|
        ensures Name(r.sites[i]) != Name(r.sites[j]) && Url(r.sites[i]) != Url(r.sites[j])
      {
        assert r.sites[i] == sites[i];
        if j < n {
          assert r.sites[j] == sites[j];
        } else {
          assert !Collides(sites[i], name, NormaliseUrl(url));
        }
      }
    }
  }

  /** Adding the same inputs a second time is refused as a duplicate and changes nothing. */
  lemma AddTwiceIsDuplicate(sites: seq<Value>, name: string, url: string)
    requires AllSiteObjects(sites)
    requires AddSite(sites, name, url).code == Added
    ensures AddSite(AddSite(sites, name, url).sites, name, url)
            == AddOutcome(Duplicate, AddSite(sites, name, url).sites)
  {
    var s := AddSite(sites, name, url).sites;
    assert Collides(s[|sites|], name, NormaliseUrl(url));
  }

  /** A scheme-less URL collides with the stored `https://` form: `chatgpt.com` is refused next to the defaults. */
  lemma SchemeLessUrlCollidesWithDefault()
    ensures AddSite(DefaultSites(), "My Chat", "chatgpt.com") == AddOutcome(Duplicate, DefaultSites())
  {
    var d := DefaultSites();
    assert !HasScheme("chatgpt.com") by {
      assert "chatgpt.com"[0] != HttpScheme[0] && "chatgpt.com"[0] != HttpsScheme[0];
    }
    assert NormaliseUrl("chatgpt.com") == "https://chatgpt.com";
    assert Collides(d[0], "My Chat", "https://chatgpt.com");
    var r := AddSite(d, "My Chat", "chatgpt.com");
    assert r.code == Duplicate;
    assert r.sites == r.sites[..|d|];
  }

  /**
   * Stored URLs are not normalised before the comparison. When a list already
   * holds a scheme-less URL `u`, adding `u` again goes through as long as no
   * entry has the new name or the URL `https://` + `u`; the new entry holds
   * `https://` + `u`.
   */
  lemma StoredUrlIsComparedAsWritten(sites: seq<Value>, name: string, u: string)
    requires AllSiteObjects(sites)
    requires name != [] && u != [] && !HasScheme(u)
    requires exists i :: 0 <= i < |sites| && Url(sites[i]) == Str(u)
    requires forall i :: 0 <= i < |sites| ==>
               Name(sites[i]) != Str(name) && Url(sites[i]) != Str(HttpsScheme + u)
    ensures AddSite(sites, name, u).code == Added
    ensures AddSite(sites, name, u).sites == sites + [SiteEntry(name, HttpsScheme + u)]
  {
    var r := AddSite(sites, name, u);
    assert r.sites == r.sites[..|sites|] + [r.sites[|sites|]];
  }

  /**
   * An instance of the rule above: a site loaded from the file as
   * `chatgpt.com` does not stop `chatgpt.com` from being added as
   * `https://chatgpt.com`.
   */
  lemma StoredUrlExample()
    ensures var stored := [SiteEntry("Chat", "chatgpt.com")];
            AddSite(stored, "Other", "chatgpt.com").code == Added
  {
    var stored := [SiteEntry("Chat", "chatgpt.com")];
    assert !HasScheme("chatgpt.com") by {
      assert "chatgpt.com"[0] != HttpScheme[0] && "chatgpt.com"[0] != HttpsScheme[0];
    }
    assert !Collides(stored[0], "Other", "https://chatgpt.com");
  }
}
