/**
 * The list logic of the dashboard page (src/app/dashboard/page.tsx): which
 * sites a view shows, the counters above the list, and how the in-memory
 * list changes after a successful archive toggle or delete. The React state
 * updates are pure functions from the old list to the new one; whether the
 * database write succeeded is a parameter.
 */
module Dashboard {
  import opened Wrappers
  import opened SiteTypes

  /**
   * The fields of a listed site that the filters and updates read. An absent
   * `is_published` or `is_downloaded` flag is `false`.
   */
  datatype Site = Site(id: string, brandName: string, status: SiteStatus, isPublished: bool, isDownloaded: bool)

  datatype ViewMode = ViewAll | ViewPublished | ViewDownloaded

  datatype Stats = Stats(all: nat, published: nat, downloaded: nat)

  // ---------------------------------------------------------------------------
  // Filtering

  /** `a` is `b` with some elements left out and the rest in their order. */
  predicate IsSubsequence(a: seq<Site>, b: seq<Site>)
    decreases |b|
  {
    if b == [] then a == []
    else (a != [] && a[0] == b[0] && IsSubsequence(a[1..], b[1..])) || IsSubsequence(a, b[1..])
  }

  /** `Array.prototype.filter`. */
  function Filter(sites: seq<Site>, keep: Site -> bool): (r: seq<Site>)
    ensures |r| <= |sites|
    ensures forall i :: 0 <= i < |r| ==> keep(r[i])
    ensures forall s :: s in r <==> s in sites && keep(s)
    ensures IsSubsequence(r, sites)
    ensures forall s :: multiset(r)[s] == if keep(s) then multiset(sites)[s] else 0
  {
    if sites == [] then []
    else
      assert multiset(sites) == multiset([sites[0]]) + multiset(sites[1..]) by {
        assert sites == [sites[0]] + sites[1..];
      }
      if keep(sites[0]) then [sites[0]] + Filter(sites[1..], keep)
      else Filter(sites[1..], keep)
  }

  /** Filtering twice keeps what both predicates keep. */
  lemma {:induction false} FilterTwice(sites: seq<Site>, p: Site -> bool, q: Site -> bool)
    ensures Filter(Filter(sites, p), q) == Filter(sites, s => p(s) && q(s))
  {
    if sites != [] {
      FilterTwice(sites[1..], p, q);
      if p(sites[0]) {
        assert Filter(sites, p)[1..] == Filter(sites[1..], p);
      }
    }
  }

  /** Filtering by a predicate every element meets changes nothing. */
  lemma {:induction false} FilterKeepsAll(sites: seq<Site>, keep: Site -> bool)
    requires forall i :: 0 <= i < |sites| ==> keep(sites[i])
    ensures Filter(sites, keep) == sites
  {
    if sites != [] {
      FilterKeepsAll(sites[1..], keep);
    }
  }

  /** What a predicate keeps and what its negation keeps add up to the whole list. */
  lemma {:induction false} FilterPartition(sites: seq<Site>, keep: Site -> bool)
    ensures |Filter(sites, keep)| + |Filter(sites, s => !keep(s))| == |sites|
  {
    if sites != [] {
      FilterPartition(sites[1..], keep);
    }
  }

  // ---------------------------------------------------------------------------
  // The views

  /** Archived sites are drafts; the active list shows published ones. */
  predicate InScope(s: Site, showArchived: bool) {
    if showArchived then s.status == Draft else s.status == Published
  }

  function ScopeFilter(showArchived: bool): Site -> bool {
    s => InScope(s, showArchived)
  }

  /** The published view also takes a site whose `is_published` flag is set. */
  predicate CountsAsPublished(s: Site) {
    s.status == Published || s.isPublished
  }

  predicate CountsAsDownloaded(s: Site) {
    s.isDownloaded
  }

  predicate ModeKeeps(mode: ViewMode, s: Site) {
    match mode
    case ViewAll => true
    case ViewPublished => CountsAsPublished(s)
    case ViewDownloaded => CountsAsDownloaded(s)
  }

  /** `getFilteredSites`: the archive scope first, then the view mode. */
  function GetFilteredSites(sites: seq<Site>, showArchived: bool, mode: ViewMode): (r: seq<Site>)
    ensures forall s :: s in r <==> s in sites && InScope(s, showArchived) && ModeKeeps(mode, s)
    ensures IsSubsequence(r, sites)
    ensures forall s :: multiset(r)[s] == if InScope(s, showArchived) && ModeKeeps(mode, s) then multiset(sites)[s] else 0
  {
    var filtered := Filter(sites, ScopeFilter(showArchived));
    match mode
    case ViewAll => filtered
    case ViewPublished =>
      FilterTwice(sites, ScopeFilter(showArchived), CountsAsPublished);
      Filter(filtered, CountsAsPublished)
    case ViewDownloaded =>
      FilterTwice(sites, ScopeFilter(showArchived), CountsAsDownloaded);
      Filter(filtered, CountsAsDownloaded)
  }

  /** `getViewModeStats`: each counter is the length of the list its view shows. */
  function GetViewModeStats(sites: seq<Site>, showArchived: bool): (r: Stats)
    ensures r.all == |GetFilteredSites(sites, showArchived, ViewAll)|
    ensures r.published == |GetFilteredSites(sites, showArchived, ViewPublished)|
    ensures r.downloaded == |GetFilteredSites(sites, showArchived, ViewDownloaded)|
    ensures r.published <= r.all && r.downloaded <= r.all
    ensures !showArchived ==> r.published == r.all
  {
    var allSites := Filter(sites, ScopeFilter(showArchived));
    assert !showArchived ==> Filter(allSites, CountsAsPublished) == allSites by {
      if !showArchived {
        FilterKeepsAll(allSites, CountsAsPublished);
      }
    }
    Stats(|allSites|, |Filter(allSites, CountsAsPublished)|, |Filter(allSites, CountsAsDownloaded)|)
  }

  // ---------------------------------------------------------------------------
  // List updates

  function Flipped(status: SiteStatus): SiteStatus {
    if status == Published then Draft else Published
  }

  /**
   * `handleArchiveToggle`: once the status update succeeded, every listed site
   * with the clicked site's id gets the flipped status of the clicked site;
   * on failure the list stays as it was.
   */
  function ArchiveToggle(sites: seq<Site>, site: Site, updateOk: bool): (r: seq<Site>)
    ensures |r| == |sites|
    ensures forall i :: 0 <= i < |sites| ==>
      r[i].id == sites[i].id && r[i].brandName == sites[i].brandName &&
      r[i].isPublished == sites[i].isPublished && r[i].isDownloaded == sites[i].isDownloaded
    ensures forall i :: 0 <= i < |sites| ==>
      r[i].status == if updateOk && sites[i].id == site.id then Flipped(site.status) else sites[i].status
  {
    if !updateOk then sites
    else
      seq(|sites|, i requires 0 <= i < |sites| =>
        if sites[i].id == site.id then sites[i].(status := Flipped(site.status)) else sites[i])
  }

  /** Clicking a listed site flips it between published and draft. */
  lemma ToggleFlipsClickedSite(sites: seq<Site>, k: nat)
    requires k < |sites|
    ensures ArchiveToggle(sites, sites[k], true)[k].status != sites[k].status
  {
  }

  /**
   * Toggling a site and then toggling it again, as it is listed afterwards,
   * gives back the original list when the sites sharing its id share its status.
   */
  lemma ToggleTwiceRestores(sites: seq<Site>, site: Site)
    requires forall i :: 0 <= i < |sites| && sites[i].id == site.id ==> sites[i].status == site.status
    ensures ArchiveToggle(ArchiveToggle(sites, site, true), site.(status := Flipped(site.status)), true) == sites
  {
    var once := ArchiveToggle(sites, site, true);
    var twice := ArchiveToggle(once, site.(status := Flipped(site.status)), true);
    assert forall i :: 0 <= i < |sites| ==> twice[i] == sites[i];
  }

  function WithoutId(id: string): Site -> bool {
    (s: Site) => s.id != id
  }

  function WithId(id: string): Site -> bool {
    (s: Site) => s.id == id
  }

  /**
   * `handleDeleteConfirm`: with no site chosen, or when the delete failed, the
   * list is unchanged; otherwise every site with the chosen id is removed.
   */
  function DeleteConfirm(sites: seq<Site>, siteToDelete: Option<Site>, deleteOk: bool): (r: seq<Site>)
    ensures siteToDelete.None? || !deleteOk ==> r == sites
    ensures IsSubsequence(r, sites)
    ensures siteToDelete.Some? && deleteOk ==>
      forall s :: s in r <==> s in sites && s.id != siteToDelete.value.id
  {
    SubsequenceReflexive(sites);
    match siteToDelete
    case None => sites
    case Some(target) => if deleteOk then Filter(sites, WithoutId(target.id)) else sites
  }

  lemma {:induction false} SubsequenceReflexive(a: seq<Site>)
    ensures IsSubsequence(a, a)
  {
    if a != [] {
      SubsequenceReflexive(a[1..]);
    }
  }

  /** A successful delete removes exactly as many sites as carry the deleted id. */
  lemma DeleteRemovesExactlyMatching(sites: seq<Site>, target: Site)
    ensures |DeleteConfirm(sites, Some(target), true)| + |Filter(sites, WithId(target.id))| == |sites|
  {
    FilterPartition(sites, WithId(target.id));
    FilterSame(sites, s => !WithId(target.id)(s), WithoutId(target.id));
  }

  lemma {:induction false} FilterSame(sites: seq<Site>, p: Site -> bool, q: Site -> bool)
    requires forall s :: p(s) == q(s)
    ensures Filter(sites, p) == Filter(sites, q)
  {
    if sites != [] {
      FilterSame(sites[1..], p, q);
    }
  }
}
