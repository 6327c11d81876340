/**
 * The dashboard as one object: the module-level variables of main.js, the
 * browser's interval timers, and the page it writes. Each method is one
 * function or event handler of main.js, run to completion; the result of a
 * request is a parameter.
 */
module Dashboard {
  import opened Wrappers
  import opened Devices
  import opened Transitions
  import opened Polling
  import opened Document

  class Dashboard {
    // module-level state of main.js
    var currentCompanyId: string    // null and '' are both "no company"
    var devicesCache: seq<Device>
    var pollHandle: nat             // 0 stands for null
    var autoRefresh: bool
    var paused: bool
    var statusFilter: StatusFilter
    var searchTerm: string

    // the browser: its live interval timers, and what the page shows
    var timers: Timers
    var page: Page
    var wired: bool                 // wireEvents has run

    /** pollHandle names the only timer that can be live. */
    ghost predicate TimersValid()
      reads this`pollHandle, this`timers
    {
      TimersOk(pollHandle, timers)
    }

    /** paused overrides autoRefresh: a live timer means both allow polling. */
    ghost predicate PollingAllowed()
      reads this`timers, this`autoRefresh, this`paused
    {
      timers.live != {} ==> autoRefresh && !paused
    }

    /** The pause button offers the action that undoes the current state. */
    ghost predicate LabelMatchesPause()
      reads this`page, this`paused
    {
      page.pauseLabel == if paused then "Resume" else "Pause"
    }

    /** The object invariant that holds between events. */
    ghost predicate Valid()
      reads this`pollHandle, this`timers, this`autoRefresh, this`paused, this`page, this`devicesCache
    {
      TimersValid() && PollingAllowed() && Settled(page, devicesCache) && LabelMatchesPause()
    }

    /** Never more than one polling timer is live, and none while auto-refresh is off or polling is paused. */
    lemma AtMostOneTimer()
      requires Valid()
      ensures |timers.live| <= 1
      ensures timers.live != {} ==> autoRefresh && !paused && timers.live == {pollHandle}
    {
    }

    /** The initial values of the module-level variables, before the page has loaded. */
    constructor ()
      ensures Valid() && !wired
      ensures currentCompanyId == "" && devicesCache == [] && pollHandle == 0 && timers.live == {}
      ensures autoRefresh && !paused && statusFilter == All && searchTerm == ""
      ensures page.companyOptions == [] && page.grid == [] && page.toasts == [] && !page.emptyShown
    {
      currentCompanyId := "";
      devicesCache := [];
      pollHandle := 0;
      autoRefresh := true;
      paused := false;
      statusFilter := All;
      searchTerm := "";
      timers := Timers({}, 1);
      page := Page([], [], false, 0, 0, 0, false, [], "Pause");
      wired := false;
    }

    /** setLoading: clear the cards and add the skeleton blocks one at a time, or hide and empty the skeleton area. */
    method SetLoading(show: bool)
      modifies this`page
      ensures page == Loading(old(page), show)
    {
      if show {
        page := page.(grid := [], skeletonCount := 0);
        for i := 0 to SKELETON_COUNT
          invariant page == old(page).(grid := [], skeletonCount := i)
        {
          page := page.(skeletonCount := page.skeletonCount + 1);
        }
        page := page.(loadingShown := true);
      } else {
        page := page.(loadingShown := false, skeletonCount := 0);
      }
    }

    /** renderCompanyOptions: the placeholder, then one option per company in list order. */
    method RenderCompanyOptions(companies: seq<Company>)
      modifies this`page
      ensures ListsCompanies(page.companyOptions, companies)
      ensures page == old(page).(companyOptions := page.companyOptions)
    {
      page := page.(companyOptions := [PLACEHOLDER]);
      for i := 0 to |companies|
        invariant page == old(page).(companyOptions := page.companyOptions)
        invariant |page.companyOptions| == 1 + i && page.companyOptions[0] == PLACEHOLDER
        invariant forall j :: 0 <= j < i ==> page.companyOptions[j + 1] == OptionFor(companies[j])
      {
        page := page.(companyOptions := page.companyOptions + [OptionFor(companies[i])]);
      }
    }

    /** The `forEach` of renderDevices: after clearing the grid, append one card per device, in order. */
    method ShowCards(cards: seq<Device>)
      modifies this`page
      ensures page == old(page).(grid := cards)
    {
      page := page.(grid := []);
      for i := 0 to |cards|
        invariant page == old(page).(grid := cards[..i])
      {
        page := page.(grid := page.grid + [cards[i]]);
      }
      assert cards[..|cards|] == cards;
    }

    /** renderDevices: cache the list, then show its cards, the empty state and the summary. */
    method RenderDevices(devices: seq<Device>)
      modifies this`devicesCache, this`page
      ensures devicesCache == devices
      ensures page == Render(old(page), devices, statusFilter, searchTerm)
      ensures LoadingCleared(old(page)) ==> Settled(page, devices)
    {
      devicesCache := devices;
      var filtered := ApplyFilters(devices, statusFilter, searchTerm);
      page := page.(emptyShown := filtered == [], onlineCount := CountOnline(devices), totalCount := |devices|);
      ShowCards(filtered);
      if LoadingCleared(old(page)) {
        RenderSpec(old(page), devices, statusFilter, searchTerm, page);
      }
    }

    /** The `try` block of refreshDevices once the devices have arrived: the toasts, then renderDevices. */
    method ShowFetched(newDevices: seq<Device>)
      modifies this`devicesCache, this`page
      ensures devicesCache == newDevices
      ensures page == Render(old(page).(toasts := old(page).toasts + TransitionToasts(old(devicesCache), newDevices)),
                             newDevices, statusFilter, searchTerm)
    {
      var messages := CollectToasts(devicesCache, newDevices);
      page := page.(toasts := page.toasts + messages);
      RenderDevices(newDevices);
    }

    /**
     * refreshDevices: with a company chosen, show the loading state, fetch,
     * toast and render when the request resolves, and release the loading
     * state on every exit; a failed request makes the call reject.
     */
    method RefreshDevices(fetched: Fetch<seq<Device>>) returns (rejected: bool)
      modifies this`devicesCache, this`page
      ensures Outcome(devicesCache, page, rejected)
              == Refresh(currentCompanyId, fetched, old(devicesCache), old(page), statusFilter, searchTerm)
      ensures Settled(old(page), old(devicesCache)) ==> Settled(page, devicesCache)
      ensures page.pauseLabel == old(page).pauseLabel
    {
      if currentCompanyId == "" {
        return false;
      }
      SetLoading(true);
      match fetched {
        case Ok(ds) =>
          ShowFetched(ds);
          rejected := false;
        case Failed =>
          rejected := true;
      }
      SetLoading(false);
      if Settled(old(page), old(devicesCache)) {
        RefreshSpec(currentCompanyId, fetched, old(devicesCache), old(page), statusFilter, searchTerm,
                       Outcome(devicesCache, page, rejected));
      }
    }

    /** startPolling: clear the timer pollHandle names, then arm a new one when auto-refresh is on and polling is not paused. */
    method StartPolling()
      requires TimersValid()
      modifies this`pollHandle, this`timers
      ensures (pollHandle, timers) == Restart(old(pollHandle), old(timers), autoRefresh && !paused)
      ensures TimersValid() && PollingAllowed()
    {
      RestartSpec(pollHandle, timers, autoRefresh && !paused);
      if pollHandle != 0 {
        timers := timers.(live := timers.live - {pollHandle});
      }
      if !autoRefresh || paused {
        return;
      }
      pollHandle := timers.nextId;
      timers := Timers(timers.live + {pollHandle}, timers.nextId + 1);
    }

    /** loadCompanies: fill the selector from the fetched list; the loading state is released either way. */
    method LoadCompanies(fetched: Fetch<seq<Company>>) returns (ok: bool)
      modifies this`page
      ensures ok <==> fetched.Ok?
      ensures fetched.Ok? ==> ListsCompanies(page.companyOptions, fetched.value)
      ensures page == Loading(Loading(old(page), true), false).(companyOptions := page.companyOptions)
      ensures fetched.Failed? ==> page.companyOptions == old(page).companyOptions
    {
      SetLoading(true);
      if fetched.Ok? {
        RenderCompanyOptions(fetched.value);
      }
      ok := fetched.Ok?;
      SetLoading(false);
    }

    /**
     * DOMContentLoaded: `await loadCompanies(); wireEvents();`. A failed
     * companies request rejects before wireEvents, so no control is wired.
     */
    method Boot(fetched: Fetch<seq<Company>>) returns (ok: bool)
      requires Valid() && !wired
      modifies this`page, this`wired
      ensures Valid()
      ensures ok <==> fetched.Ok?
      ensures wired <==> fetched.Ok?
      ensures fetched.Ok? ==> ListsCompanies(page.companyOptions, fetched.value)
      ensures fetched.Failed? ==> page.companyOptions == old(page).companyOptions
      ensures page == Loading(Loading(old(page), true), false).(companyOptions := page.companyOptions)
    {
      ok := LoadCompanies(fetched);
      wired := ok;
    }

    /**
     * The polling callback: refresh unless polling is paused at that moment.
     * While the invariant holds a live timer implies `!paused`, so a tick
     * that arrives while paused is one that nothing has armed.
     */
    method Tick(fetched: Fetch<seq<Device>>) returns (rejected: bool)
      requires Valid()
      modifies this`devicesCache, this`page
      ensures Valid()
      ensures Outcome(devicesCache, page, rejected)
              == if paused then Outcome(old(devicesCache), old(page), false)
                 else Refresh(currentCompanyId, fetched, old(devicesCache), old(page), statusFilter, searchTerm)
    {
      rejected := false;
      if !paused {
        rejected := RefreshDevices(fetched);
      }
    }

    /**
     * The company selector's change handler: record the chosen value, await
     * the refresh, then restart polling. A rejected refresh ends the handler
     * before startPolling, so the timers stay as they were.
     */
    method OnCompanyChange(value: string, fetched: Fetch<seq<Device>>) returns (rejected: bool)
      requires Valid() && wired
      modifies this`currentCompanyId, this`devicesCache, this`page, this`pollHandle, this`timers
      ensures Valid()
      ensures currentCompanyId == value
      ensures Outcome(devicesCache, page, rejected)
              == Refresh(value, fetched, old(devicesCache), old(page), statusFilter, searchTerm)
      ensures (pollHandle, timers)
              == if rejected then (old(pollHandle), old(timers)) else Restart(old(pollHandle), old(timers), autoRefresh && !paused)
    {
      currentCompanyId := value;
      rejected := RefreshDevices(fetched);
      if !rejected {
        StartPolling();
      }
    }

    /** The refresh button: one refresh, with nothing else changed. */
    method OnRefreshClick(fetched: Fetch<seq<Device>>) returns (rejected: bool)
      requires Valid() && wired
      modifies this`devicesCache, this`page
      ensures Valid()
      ensures Outcome(devicesCache, page, rejected)
              == Refresh(currentCompanyId, fetched, old(devicesCache), old(page), statusFilter, searchTerm)
    {
      rejected := RefreshDevices(fetched);
    }

    /** A status filter button: switch the filter and re-render the cached list, without a request. */
    method OnStatusFilterClick(filter: StatusFilter)
      requires Valid() && wired
      modifies this`statusFilter, this`devicesCache, this`page
      ensures Valid()
      ensures statusFilter == filter && devicesCache == old(devicesCache)
      ensures page == Render(old(page), devicesCache, filter, searchTerm)
    {
      statusFilter := filter;
      RenderDevices(devicesCache);
    }

    /** The search box: record the raw input and re-render the cached list, without a request. */
    method OnSearchInput(term: string)
      requires Valid() && wired
      modifies this`searchTerm, this`devicesCache, this`page
      ensures Valid()
      ensures searchTerm == term && devicesCache == old(devicesCache)
      ensures page == Render(old(page), devicesCache, statusFilter, term)
    {
      searchTerm := term;
      RenderDevices(devicesCache);
    }

    /** The auto-refresh checkbox: record its state and restart polling. */
    method OnAutoRefreshChange(checked: bool)
      requires Valid() && wired
      modifies this`autoRefresh, this`pollHandle, this`timers
      ensures Valid()
      ensures autoRefresh == checked
      ensures (pollHandle, timers) == Restart(old(pollHandle), old(timers), checked && !paused)
    {
      autoRefresh := checked;
      StartPolling();
    }

    /**
     * The pause button: flip paused, relabel the button, refresh once when
     * resuming (without awaiting it, so a rejection does not stop the
     * handler), then restart polling.
     */
    method OnPauseClick(fetched: Fetch<seq<Device>>) returns (rejected: bool)
      requires Valid() && wired
      modifies this`paused, this`devicesCache, this`page, this`pollHandle, this`timers
      ensures Valid()
      ensures paused == !old(paused)
      ensures var labelled := old(page).(pauseLabel := if paused then "Resume" else "Pause");
        Outcome(devicesCache, page, rejected)
        == if paused then Outcome(old(devicesCache), labelled, false)
           else Refresh(currentCompanyId, fetched, old(devicesCache), labelled, statusFilter, searchTerm)
      ensures (pollHandle, timers) == Restart(old(pollHandle), old(timers), autoRefresh && !paused)
    {
      paused := !paused;
      page := page.(pauseLabel := if paused then "Resume" else "Pause");
      rejected := false;
      if !paused {
        rejected := RefreshDevices(fetched);
      }
      StartPolling();
    }
  }
}
