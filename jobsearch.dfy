/** The job search page of pages/JobSearch.tsx.

    `fetchJobs` is split at its `await`: `BeginFetch` sets `loading` and issues
    matchJobs with the query profile, `FinishFetch` applies the outcome (`Success`
    when the call resolved, `Failure` when it threw). The effect that runs
    `fetchJobs` once on mount is the caller's first `BeginFetch`. */
module JobSearch {
  import opened Wrappers
  import opened Types
  import Profile

  const NoSourcesLabel := "No sources to display"
  const IdentifyingSourcesLabel := "Identifying Sources..."

  /** `{ ...user, field: selectedField, preferences: searchTerm }`. */
  function QueryProfile(user: UserProfile, selectedField: string, searchTerm: string): (q: UserProfile)
    ensures q.field == selectedField && q.preferences == searchTerm
    ensures forall f :: f != Profile.Field && f != Profile.Preferences ==> Profile.Get(q, f) == Profile.Get(user, f)
    ensures q.skills == user.skills
  {
    user.(field := selectedField, preferences := searchTerm)
  }

  /** The sources sidebar: the link list or the placeholder text. */
  datatype SourcesPanel = SourceLinks(sources: seq<GroundingSource>) | Placeholder(text: string)

  /** The placeholder's text: `loading ? 'Identifying Sources...' : 'No sources to display'`. */
  function PlaceholderLabel(loading: bool): (text: string)
    ensures text != ""
    ensures text == IdentifyingSourcesLabel <==> loading
  {
    if loading then IdentifyingSourcesLabel else NoSourcesLabel
  }

  /** The sidebar: not rendered while loading (the skeleton replaces the whole grid);
      otherwise the links when the result has sources, else the placeholder. */
  function Sidebar(loading: bool, result: Option<SearchResult>): (v: Option<SourcesPanel>)
    ensures loading <==> v.None?
    ensures !loading && result.Some? && result.value.sources != [] ==> v == Some(SourceLinks(result.value.sources))
    ensures !loading && (result.None? || result.value.sources == []) ==> v == Some(Placeholder(NoSourcesLabel))
  {
    if loading then None
    else if result.Some? && |result.value.sources| > 0 then Some(SourceLinks(result.value.sources))
    else Some(Placeholder(PlaceholderLabel(loading)))
  }

  /** The "Identifying Sources..." label is never on screen: the sidebar is only
      rendered once loading has ended. */
  lemma IdentifyingLabelNeverShown(loading: bool, result: Option<SearchResult>)
    ensures Sidebar(loading, result) != Some(Placeholder(IdentifyingSourcesLabel))
  {
  }

  class JobSearch {
    const user: UserProfile
    var searchResult: Option<SearchResult>
    var loading: bool
    var searchTerm: string
    var selectedField: string
    /** The query profile of the outstanding matchJobs call. */
    var pendingQuery: Option<UserProfile>

    ghost predicate Valid()
      reads this
    {
      loading <==> pendingQuery.Some?
    }

    /** The page's initial state: the field selector starts at the user's field. */
    constructor (user: UserProfile)
      ensures Valid() && this.user == user
      ensures selectedField == user.field && searchTerm == ""
      ensures searchResult.None? && !loading
    {
      this.user := user;
      searchResult, loading := None, false;
      searchTerm, selectedField := "", user.field;
      pendingQuery := None;
    }

    /** The Find button is `disabled={loading}`: a click on the enabled button finds
        no search outstanding. */
    predicate FindEnabled()
      reads this
      ensures FindEnabled() && Valid() ==> pendingQuery.None?
    {
      !loading
    }

    /** The skeleton while loading, else the grid with its sources sidebar. */
    function View(): (v: Option<SourcesPanel>)
      reads this
      ensures loading <==> v.None?
      ensures !loading && searchResult.Some? && searchResult.value.sources != [] ==>
        v == Some(SourceLinks(searchResult.value.sources))
      ensures !loading && (searchResult.None? || searchResult.value.sources == []) ==>
        v == Some(Placeholder(NoSourcesLabel))
    {
      Sidebar(loading, searchResult)
    }

    /** The keywords input's `onChange`. */
    method EditSearchTerm(text: string)
      requires Valid()
      modifies this
      ensures Valid() && searchTerm == text
      ensures selectedField == old(selectedField) && searchResult == old(searchResult)
      ensures loading == old(loading) && pendingQuery == old(pendingQuery)
    {
      searchTerm := text;
    }

    /** The field selector's `onChange`. */
    method SelectField(field: string)
      requires Valid()
      modifies this
      ensures Valid() && selectedField == field
      ensures searchTerm == old(searchTerm) && searchResult == old(searchResult)
      ensures loading == old(loading) && pendingQuery == old(pendingQuery)
    {
      selectedField := field;
    }

    /** `fetchJobs` up to the call: loading, and matchJobs issued with the user's
        profile whose field and preferences are the selected field and the keywords. */
    method BeginFetch()
      requires Valid() && !loading
      modifies this
      ensures Valid() && loading
      ensures pendingQuery == Some(QueryProfile(user, selectedField, searchTerm))
      ensures searchResult == old(searchResult)
      ensures searchTerm == old(searchTerm) && selectedField == old(selectedField)
    {
      loading := true;
      pendingQuery := Some(QueryProfile(user, selectedField, searchTerm));
    }

    /** `fetchJobs` after the call: a resolved call replaces the result wholesale, a
        failed one keeps the previous result; loading ends either way. */
    method FinishFetch(outcome: Result<SearchResult, string>)
      requires Valid() && pendingQuery.Some?
      modifies this
      ensures Valid() && !loading && pendingQuery.None?
      ensures outcome.Success? ==> searchResult == Some(outcome.value)
      ensures outcome.Failure? ==> searchResult == old(searchResult)
      ensures searchTerm == old(searchTerm) && selectedField == old(selectedField)
    {
      if outcome.Success? {
        searchResult := Some(outcome.value);
      }
      loading := false;
      pendingQuery := None;
    }
  }

  /** A search whose reply has no sources shows the placeholder, not an empty list;
      while the search runs the Find button is disabled and the sidebar is hidden. */
  method SearchWithoutSources(user: UserProfile, text: string)
    returns (findWhileLoading: bool, duringSearch: Option<SourcesPanel>, afterSearch: Option<SourcesPanel>)
    ensures !findWhileLoading && duringSearch.None?
    ensures afterSearch == Some(Placeholder(NoSourcesLabel))
  {
    var page := new JobSearch(user);
    page.BeginFetch();
    findWhileLoading := page.FindEnabled();
    duringSearch := page.View();
    page.FinishFetch(Success(SearchResult(text, [])));
    afterSearch := page.View();
  }
}
