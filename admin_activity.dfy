/**
 * The activity feed page: a case-insensitive search over the global feed
 * and a "load more" pagination twenty entries at a time.
 */
module AdminActivity {
  import opened Seqs
  import opened Text
  import opened Types
  import opened Lookups

  const PageSize: nat := 20

  /** The lower-cased query occurs in the action text or in the user name
      (an entry without one searches the empty string). */
  predicate EntryHit(e: ActivityEntry, search: string)
  {
    ContainsIgnoringCase(e.action, search) || ContainsIgnoringCase(OrElse(e.userName, ""), search)
  }

  /** `filtered`: the whole feed for a blank query; otherwise the entries
      the query, as typed and not trimmed, hits. */
  function SearchFeed(feed: seq<ActivityEntry>, search: string): (r: seq<ActivityEntry>)
    ensures Trim(search) == [] ==> r == feed
    ensures IsSubseq(r, feed)
    ensures Trim(search) != [] ==>
      (forall i :: 0 <= i < |r| ==> r[i] in feed && EntryHit(r[i], search)) &&
      (forall i :: 0 <= i < |feed| && EntryHit(feed[i], search) ==> feed[i] in r)
  {
    if Trim(search) == [] then
      IsSubseqRefl(feed);
      feed
    else
      var p := (e: ActivityEntry) => EntryHit(e, search);
      FilterIsSubseq(feed, p);
      Filter(feed, p)
  }

  /** `filtered.slice(0, visibleCount)` */
  function Visible(filtered: seq<ActivityEntry>, visibleCount: nat): seq<ActivityEntry>
  {
    if visibleCount < |filtered| then filtered[..visibleCount] else filtered
  }

  /** `visibleCount < filtered.length` */
  predicate HasMore(filtered: seq<ActivityEntry>, visibleCount: nat)
  {
    visibleCount < |filtered|
  }

  /** The count on the "Load More" button. */
  function Remaining(filtered: seq<ActivityEntry>, visibleCount: nat): int
  {
    |filtered| - visibleCount
  }

  /** The visible entries are the first `min(visibleCount, |filtered|)`
      entries; the button shows exactly when some are hidden, and then
      counts a positive number of them. */
  lemma VisiblePrefix(filtered: seq<ActivityEntry>, visibleCount: nat)
    ensures var v := Visible(filtered, visibleCount);
      |v| == (if visibleCount < |filtered| then visibleCount else |filtered|) &&
      v == filtered[..|v|]
    ensures HasMore(filtered, visibleCount) <==> |Visible(filtered, visibleCount)| < |filtered|
    ensures HasMore(filtered, visibleCount) ==> (Remaining(filtered, visibleCount) > 0 &&
      |Visible(filtered, visibleCount)| + Remaining(filtered, visibleCount) == |filtered|)
  {
  }

  /** Loading more keeps what was shown at the head and shows up to one
      page more. */
  lemma LoadMoreExtends(filtered: seq<ActivityEntry>, visibleCount: nat)
    ensures var before := Visible(filtered, visibleCount);
      var after := Visible(filtered, visibleCount + PageSize);
      after[..|before|] == before && |after| - |before| <= PageSize &&
      (HasMore(filtered, visibleCount) ==> |after| > |before|)
  {
  }

  /** The page's state: the search box and how many entries are shown. */
  class ActivityView {
    var search: string
    var visibleCount: nat

    constructor ()
      ensures search == "" && visibleCount == PageSize
    {
      search := "";
      visibleCount := PageSize;
    }

    function Filtered(feed: seq<ActivityEntry>): seq<ActivityEntry>
      reads this
    {
      SearchFeed(feed, search)
    }

    function Shown(feed: seq<ActivityEntry>): seq<ActivityEntry>
      reads this
    {
      Visible(Filtered(feed), visibleCount)
    }

    /** `loadMore` */
    method LoadMore()
      modifies this
      ensures visibleCount == old(visibleCount) + PageSize && search == old(search)
    {
      visibleCount := visibleCount + PageSize;
    }

    /** The search box's change handler: a new query starts again at one
        page. */
    method OnSearchChange(text: string)
      modifies this
      ensures search == text && visibleCount == PageSize
    {
      search := text;
      visibleCount := PageSize;
    }
  }

  /** However many pages were loaded, a new query shows at most one page,
      from the head of its results. */
  lemma SearchResetsPaging(feed: seq<ActivityEntry>, text: string)
    ensures var v := Visible(SearchFeed(feed, text), PageSize);
      |v| <= PageSize && v == SearchFeed(feed, text)[..|v|]
  {
    VisiblePrefix(SearchFeed(feed, text), PageSize);
  }
}
