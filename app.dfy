/**
 * The main window's site state: the in-memory site list, the tab widget's
 * tabs, the `web_views` dictionary keyed by tab index, the current tab, and
 * the state of `sites.json` as this run has left it. Widgets and web pages are values
 * here; the dialog, the file and the save are given as parameters.
 */
module App {
  import opened Json
  import opened Sites
  import Dialogs

  datatype Option<T> = None | Some(value: T)

  /** A web view, known only by the URL it was told to load. */
  datatype WebView = WebView(url: Value)

  /** One tab of the tab widget: its title and the web view it shows. */
  datatype Tab = Tab(title: Value, view: WebView)

  /** The tab shown for a site: titled with its name, loading its URL. */
  function TabFor(site: Value): Tab
    requires IsSiteObject(site)
  {
    Tab(Name(site), WebView(Url(site)))
  }

  /**
   * A blank name field reaches the add rule as the empty string and is
   * refused, whatever the URL field holds.
   */
  lemma BlankNameRejected(sites: seq<Value>, nameText: string, urlText: string)
    requires AllSiteObjects(sites)
    requires Dialogs.AllSpace(nameText)
    ensures var inputs := Dialogs.GetInputs(nameText, urlText);
            AddSite(sites, inputs.0, inputs.1) == AddOutcome(EmptyName, sites)
  {
    var inputs := Dialogs.GetInputs(nameText, urlText);
    var r := AddSite(sites, inputs.0, inputs.1);
    assert r.sites == r.sites[..|sites|];
  }

  /**
   * A blank URL field with a non-blank name field is refused as an empty
   * URL, whatever the list holds.
   */
  lemma BlankUrlRejected(sites: seq<Value>, nameText: string, urlText: string)
    requires AllSiteObjects(sites)
    requires !Dialogs.AllSpace(nameText) && Dialogs.AllSpace(urlText)
    ensures var inputs := Dialogs.GetInputs(nameText, urlText);
            AddSite(sites, inputs.0, inputs.1) == AddOutcome(EmptyUrl, sites)
  {
    var inputs := Dialogs.GetInputs(nameText, urlText);
    var r := AddSite(sites, inputs.0, inputs.1);
    assert r.sites == r.sites[..|sites|];
  }

  class MainWindow {
    var sites: seq<Value>
    var tabs: seq<Tab>
    var webViews: map<int, WebView>
    var current: int
    var file: SiteFile

    /**
     * Every entry has both keys, tab `i` shows `sites[i]`, `webViews` maps
     * exactly the tab indices to their views, and a non-empty tab widget
     * has a current tab. A file written by this run holds site objects.
     */
    ghost predicate Valid()
      reads this
    {
      && AllSiteObjects(sites)
      && |tabs| == |sites|
      && (forall i :: 0 <= i < |sites| ==> tabs[i] == TabFor(sites[i]))
      && (forall i :: i in webViews <==> 0 <= i < |tabs|)
      && (forall i :: 0 <= i < |tabs| ==> webViews[i] == tabs[i].view)
      && -1 <= current < |tabs|
      && (tabs != [] ==> 0 <= current)
      && (file.Holds? ==> AllSiteObjects(file.sites))
    }

    /** `__init__`: load the sites, then fill the tabs. */
    constructor (startup: ReadOutcome)
      ensures Valid()
      ensures sites == LoadSites(startup)
      ensures current == (if sites == [] then -1 else 0)
      ensures file == Untouched
    {
      sites := LoadSites(startup);
      tabs := [];
      webViews := map[];
      current := -1;
      file := Untouched;
      new;
      PopulateTabs();
    }

    /**
     * The tab-filling part of `init_ui`: remove every tab, clear
     * `webViews`, add one tab per site in list order under its index, and
     * select the first tab when there is one.
     */
    method PopulateTabs()
      requires AllSiteObjects(sites)
      requires file.Holds? ==> AllSiteObjects(file.sites)
      modifies this
      ensures Valid()
      ensures sites == old(sites) && file == old(file)
      ensures current == (if sites == [] then -1 else 0)
    {
      while |tabs| > 0
        invariant sites == old(sites) && file == old(file)
      {
        tabs := tabs[1..];
      }
      webViews := map[];
      current := -1;  // an empty tab widget has no current tab
      for index := 0 to |sites|
        invariant sites == old(sites) && file == old(file)
        invariant current == -1
        invariant |tabs| == index
        invariant forall k :: 0 <= k < index ==> tabs[k] == TabFor(sites[k])
        invariant forall k :: k in webViews <==> 0 <= k < index
        invariant forall k :: 0 <= k < index ==> webViews[k] == tabs[k].view
      {
        var view := WebView(Url(sites[index]));
        tabs := tabs + [Tab(Name(sites[index]), view)];
        webViews := webViews[index := view];
      }
      if |tabs| > 0 {
        current := 0;
      }
    }

    /**
     * `save_sites`: write the whole list, reporting `w`. A failure shows a
     * warning; if it came after the open had emptied the file, the file is
     * left damaged and the next start-up falls back to the defaults.
     */
    method SaveSites(w: WriteOutcome) returns (warned: bool)
      requires AllSiteObjects(sites)
      modifies this`file
      ensures file == AfterSave(old(file), w, sites)
      ensures warned <==> w != Written
      ensures w != OpenFailed ==>
                forall r :: ReadsAs(file, r) ==>
                  LoadSites(r) == (if w == Written then sites else DefaultSites())
    {
      match w {
        case OpenFailed =>
        case WriteFailed => file := Damaged;
        case Written => file := Holds(sites);
      }
      warned := w != Written;
      forall r | w != OpenFailed && ReadsAs(file, r)
        ensures LoadSites(r) == (if w == Written then sites else DefaultSites())
      {
        LoadAfterSave(old(file), w, sites, r);
      }
    }

    /**
     * The tail of `add_site_tab` once the rule has let a site through:
     * append it, save, add its tab at the next index and select that tab.
     */
    method AppendSite(name: string, url: string, w: WriteOutcome)
      requires Valid()
      modifies this
      ensures Valid()
      ensures sites == old(sites) + [SiteEntry(name, url)]
      ensures tabs == old(tabs) + [TabFor(SiteEntry(name, url))]
      ensures webViews == old(webViews)[|old(sites)| := WebView(Str(url))]
      ensures current == |old(sites)|
      ensures file == AfterSave(old(file), w, sites)
    {
      sites := sites + [SiteEntry(name, url)];
      var _ := SaveSites(w);

      var view := WebView(Str(url));
      var newIndex := |tabs|;
      tabs := tabs + [Tab(Str(name), view)];
      webViews := webViews[newIndex := view];
      current := newIndex;
    }

    /**
     * `add_site_tab`. `accepted` is whether the dialog was confirmed,
     * `nameText` and `urlText` are the raw field texts, `w` how the file
     * write ends. `None` means the dialog was cancelled.
     * A failed save does not undo the append, and the tab is added anyway.
     */
    method AddSiteTab(accepted: bool, nameText: string, urlText: string, w: WriteOutcome)
      returns (code: Option<AddCode>)
      requires Valid()
      modifies this
      ensures Valid()
      ensures !accepted ==> code == None
      ensures accepted ==>
                var inputs := Dialogs.GetInputs(nameText, urlText);
                var r := AddSite(old(sites), inputs.0, inputs.1);
                code == Some(r.code) && sites == r.sites
      ensures code != Some(Added) ==> unchanged(this)
      ensures code == Some(Added) ==>
                && tabs == old(tabs) + [TabFor(sites[|sites| - 1])]
                && webViews == old(webViews)[|sites| - 1 := tabs[|sites| - 1].view]
                && current == |sites| - 1
                && file == AfterSave(old(file), w, sites)
      ensures Distinct(old(sites)) ==> Distinct(sites)
    {
      if !accepted {
        return None;
      }
      var inputs := Dialogs.GetInputs(nameText, urlText);
      var name, url := inputs.0, inputs.1;
      ghost var before := sites;
      ghost var rule := AddSite(before, name, url);
      if Distinct(before) {
        AddPreservesDistinct(before, name, url);
      }

      if name == [] {
        assert rule == AddOutcome(EmptyName, before);
        return Some(EmptyName);
      }
      if url == [] {
        assert rule == AddOutcome(EmptyUrl, before);
        return Some(EmptyUrl);
      }
      if !HasScheme(url) {
        url := HttpsScheme + url;
      }
      assert url == NormaliseUrl(inputs.1);
      if AnyCollision(sites, name, url) {
        assert rule == AddOutcome(Duplicate, before);
        return Some(Duplicate);
      }

      AppendSite(name, url, w);
      assert rule == AddOutcome(Added, sites);
      return Some(Added);
    }
  }
}
