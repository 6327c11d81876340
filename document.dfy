/**
 * The parts of the document that main.js writes, as a value, and what
 * setLoading, renderDevices and one whole refreshDevices call do to them.
 * The HTML of each card and option is left out: a card is the device it
 * shows, an option its value and text.
 */
module Document {
  import opened Wrappers
  import opened Text
  import opened Seqs
  import opened Devices
  import opened Transitions

  /** setLoading(true) shows this many skeleton blocks. */
  const SKELETON_COUNT: nat := 6

  /** An `<option>` of the company selector. */
  datatype SelectOption = SelectOption(value: string, text: string)

  /** The first option, which stands for "no company chosen". */
  const PLACEHOLDER := SelectOption("", "-- Choose company --")

  /** The option of one company: its id as decimal text and its name. */
  function OptionFor(c: Company): SelectOption {
    SelectOption(Decimal(c.id), c.name)
  }

  /** The selector lists the placeholder first and then one option per company, in order. */
  predicate ListsCompanies(options: seq<SelectOption>, companies: seq<Company>) {
    && |options| == 1 + |companies|
    && options[0] == PLACEHOLDER
    && forall i :: 0 <= i < |companies| ==> options[i + 1] == OptionFor(companies[i])
  }

  /**
   * In a selector built from a company list, the placeholder is the only
   * option whose value is empty, and every other value reads back as the id
   * of its company, so choosing any company makes `currentCompanyId` truthy.
   */
  lemma CompanyOptionValues(options: seq<SelectOption>, companies: seq<Company>)
    requires ListsCompanies(options, companies)
    ensures options[0].value == ""
    ensures forall i :: 0 < i < |options| ==> options[i].value != ""
    ensures forall i :: 0 <= i < |companies| ==> DecimalValue(options[i + 1].value) == companies[i].id
  {
    forall i | 0 < i < |options|
      ensures options[i].value != ""
    {
      assert options[i] == OptionFor(companies[i - 1]);
    }
    forall i | 0 <= i < |companies|
      ensures DecimalValue(options[i + 1].value) == companies[i].id
    {
      DecimalRoundTrip(companies[i].id);
    }
  }

  /** The elements of the page that main.js writes. */
  datatype Page = Page(
    companyOptions: seq<SelectOption>,  // the options of #companySelect
    grid: seq<Device>,                  // the cards of #devicesGrid, one per device shown
    emptyShown: bool,                   // #emptyState is visible
    onlineCount: nat,                   // the two numbers of #summaryCounts
    totalCount: nat,
    skeletonCount: nat,                 // the skeleton blocks inside #loading
    loadingShown: bool,                 // #loading is visible
    toasts: seq<string>,                // the messages added to #toast
    pauseLabel: string)                 // the text of #pauseBtn

  /** setLoading(show): clear the cards and show six skeletons, or hide and empty the skeleton area. */
  function Loading(p: Page, show: bool): Page {
    if show then p.(grid := [], skeletonCount := SKELETON_COUNT, loadingShown := true)
    else p.(skeletonCount := 0, loadingShown := false)
  }

  /** The loading state is released: no skeletons are shown. */
  predicate LoadingCleared(p: Page) {
    !p.loadingShown && p.skeletonCount == 0
  }

  /** Between events: the loading state is released and the summary counts describe the cached list. */
  predicate Settled(p: Page, cache: seq<Device>) {
    LoadingCleared(p) && p.onlineCount == CountOnline(cache) && p.totalCount == |cache|
  }

  /** renderDevices(devices): the cards that pass the filters, the empty state and the summary counts. */
  function Render(p: Page, devices: seq<Device>, filter: StatusFilter, term: string): Page {
    var shown := ApplyFilters(devices, filter, term);
    p.(grid := shown, emptyShown := shown == [], onlineCount := CountOnline(devices), totalCount := |devices|)
  }

  /**
   * After renderDevices the cards are the devices that pass both filters,
   * in list order; the empty state is shown exactly when no device of the
   * list passes; and the summary counts the whole, unfiltered list, so the
   * online count never exceeds the total.
   */
  lemma RenderSpec(p: Page, devices: seq<Device>, filter: StatusFilter, term: string, q: Page)
    requires q == Render(p, devices, filter, term)
    ensures IsSubsequence(q.grid, devices)
    ensures forall d :: d in q.grid <==> d in devices && Passes(filter, term, d)
    ensures q.emptyShown <==> forall d :: d in devices ==> !Passes(filter, term, d)
    ensures q.onlineCount == CountOnline(devices) <= q.totalCount == |devices|
    ensures q == p.(grid := q.grid, emptyShown := q.emptyShown, onlineCount := q.onlineCount, totalCount := q.totalCount)
    ensures LoadingCleared(p) ==> Settled(q, devices)
  {
    ApplyFiltersSpec(devices, filter, term);
    OnlineCountSpec(devices);
    if !q.emptyShown {
      assert q.grid[0] in q.grid;
    }
  }

  /** What one refreshDevices call leaves behind, and whether its promise rejects. */
  datatype Outcome = Outcome(cache: seq<Device>, page: Page, rejected: bool)

  /**
   * refreshDevices, step by step: nothing without a company; otherwise the
   * loading state, then (when the request resolves) one toast per device
   * that came back online and the new list rendered, and in every case the
   * loading state released by the `finally` block.
   */
  function Refresh(companyId: string, fetched: Fetch<seq<Device>>, cache: seq<Device>, p: Page,
                   filter: StatusFilter, term: string): Outcome
  {
    if companyId == "" then Outcome(cache, p, false)
    else
      var loading := Loading(p, true);
      match fetched
      case Ok(ds) =>
        var toasted := loading.(toasts := loading.toasts + TransitionToasts(cache, ds));
        Outcome(ds, Loading(Render(toasted, ds, filter, term), false), false)
      case Failed =>
        Outcome(cache, Loading(loading, false), true)
  }

  /**
   * The properties of one refresh: it rejects exactly when a company is
   * chosen and the request fails; without a company nothing changes; with
   * one, the loading state is released whatever the request does; a failed
   * request leaves the cache and the toasts alone and the cards cleared; a
   * successful one caches and renders the new list and appends exactly the
   * transition toasts.
   */
  lemma RefreshSpec(companyId: string, fetched: Fetch<seq<Device>>, cache: seq<Device>, p: Page,
                    filter: StatusFilter, term: string, r: Outcome)
    requires r == Refresh(companyId, fetched, cache, p, filter, term)
    ensures r.rejected <==> companyId != "" && fetched.Failed?
    ensures companyId == "" ==> r.cache == cache && r.page == p
    ensures companyId != "" || LoadingCleared(p) ==> LoadingCleared(r.page)
    ensures Settled(p, cache) ==> Settled(r.page, r.cache)
    ensures r.page.companyOptions == p.companyOptions && r.page.pauseLabel == p.pauseLabel
    ensures companyId != "" && fetched.Failed? ==>
      r.cache == cache && r.page.grid == [] && r.page.toasts == p.toasts && r.page.emptyShown == p.emptyShown
      && r.page.onlineCount == p.onlineCount && r.page.totalCount == p.totalCount
    ensures companyId != "" && fetched.Ok? ==>
      && r.cache == fetched.value
      && IsSubsequence(r.page.grid, fetched.value)
      && (forall d :: d in r.page.grid <==> d in fetched.value && Passes(filter, term, d))
      && (r.page.emptyShown <==> forall d :: d in fetched.value ==> !Passes(filter, term, d))
      && r.page.onlineCount == CountOnline(fetched.value) <= r.page.totalCount == |fetched.value|
      && r.page.toasts == p.toasts + TransitionToasts(cache, fetched.value)
  {
    if companyId != "" && fetched.Ok? {
      var loading := Loading(p, true);
      var toasted := loading.(toasts := loading.toasts + TransitionToasts(cache, fetched.value));
      RenderSpec(toasted, fetched.value, filter, term, Render(toasted, fetched.value, filter, term));
    }
  }
}
