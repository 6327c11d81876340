/**
 * The dashboard's data model (companies and devices as the API returns them)
 * and the filter engine: `applyFilters`, the online/total summary and the
 * text of the summary line.
 */
module Devices {
  import opened Wrappers
  import opened Text
  import opened Seqs

  /** A device's `status` field; the API only ever sends "online" or "offline". */
  datatype Status = Online | Offline

  /** The status filter buttons' `data-filter` values: "all", "online" or "offline". */
  datatype StatusFilter = All | Only(wanted: Status)

  /** One element of the `/devices/company/{id}` array. */
  datatype Device = Device(id: int, name: Option<string>, status: Status, lastReadAt: Option<string>)

  /** One element of the `/companies/` array. */
  datatype Company = Company(id: nat, name: string)

  /** `d.device_name || ''`: a null name searches as the empty string. */
  function NameOrEmpty(d: Device): string {
    match d.name
    case Some(n) => n
    case None => ""
  }

  /** The search needle: the search term, trimmed and lower-cased. */
  function Needle(term: string): string {
    ToLower(Trim(term))
  }

  function StatusIs(st: Status): Device -> bool {
    (d: Device) => d.status == st
  }

  function NameIncludes(needle: string): Device -> bool {
    (d: Device) => Includes(ToLower(NameOrEmpty(d)), needle)
  }

  /** applyFilters: the status step when a status is chosen, then the search step when the trimmed term is not empty. */
  function ApplyFilters(list: seq<Device>, filter: StatusFilter, term: string): seq<Device> {
    var out := if filter.Only? then Keep(list, StatusIs(filter.wanted)) else list;
    if Trim(term) != [] then Keep(out, NameIncludes(Needle(term))) else out
  }

  /** The status test a device has to pass. */
  predicate MatchesStatus(filter: StatusFilter, d: Device) {
    filter.All? || d.status == filter.wanted
  }

  /** The search test a device has to pass: a blank term, or the lower-cased name contains the needle. */
  predicate MatchesSearch(term: string, d: Device) {
    Trim(term) == [] || Includes(ToLower(NameOrEmpty(d)), Needle(term))
  }

  /** Whether one device is shown, judged on its own. */
  predicate Passes(filter: StatusFilter, term: string, d: Device) {
    MatchesStatus(filter, d) && MatchesSearch(term, d)
  }

  function PassesWith(filter: StatusFilter, term: string): Device -> bool {
    (d: Device) => Passes(filter, term, d)
  }

  /** The two filter steps together keep exactly the devices that pass both tests, in input order. */
  lemma ApplyFiltersIsKeep(list: seq<Device>, filter: StatusFilter, term: string)
    ensures ApplyFilters(list, filter, term) == Keep(list, PassesWith(filter, term))
  {
    var both := PassesWith(filter, term);
    if filter.Only? && Trim(term) != [] {
      KeepFuse(list, StatusIs(filter.wanted), NameIncludes(Needle(term)), both);
    } else if filter.Only? {
      KeepAgree(list, StatusIs(filter.wanted), both);
    } else if Trim(term) != [] {
      KeepAgree(list, NameIncludes(Needle(term)), both);
    } else {
      KeepAllIff(list, both);
    }
  }

  /**
   * The filter only removes devices (what it returns is a subsequence of its
   * input), returns a device exactly when it is in the input and passes both
   * tests, and keeps every copy of a passing device and none of a failing one.
   */
  lemma ApplyFiltersSpec(list: seq<Device>, filter: StatusFilter, term: string)
    ensures IsSubsequence(ApplyFilters(list, filter, term), list)
    ensures forall d :: d in ApplyFilters(list, filter, term) <==> d in list && Passes(filter, term, d)
    ensures forall d :: multiset(ApplyFilters(list, filter, term))[d] ==
                        if Passes(filter, term, d) then multiset(list)[d] else 0
  {
    ApplyFiltersIsKeep(list, filter, term);
    KeepIsSubsequence(list, PassesWith(filter, term));
    forall d ensures multiset(ApplyFilters(list, filter, term))[d] ==
      if Passes(filter, term, d) then multiset(list)[d] else 0
    {
      KeepMultiset(list, PassesWith(filter, term), d);
    }
  }

  /** With a status chosen, every device shown has that status. */
  lemma ApplyFiltersStatusSound(list: seq<Device>, wanted: Status, term: string, d: Device)
    requires d in ApplyFilters(list, Only(wanted), term)
    ensures d.status == wanted
  {
    ApplyFiltersSpec(list, Only(wanted), term);
  }

  /**
   * A device passes the search step exactly when the term is blank or the
   * lower-cased name (the empty string when null) has the lower-cased,
   * trimmed term at some position.
   */
  lemma SearchStepIff(term: string, d: Device)
    ensures MatchesSearch(term, d) <==>
      (forall i :: 0 <= i < |term| ==> IsJsSpace(term[i])) ||
      exists k :: OccursAt(ToLower(NameOrEmpty(d)), ToLower(Trim(term)), k)
  {
    TrimEmptyIff(term);
    IncludesIff(ToLower(NameOrEmpty(d)), Needle(term));
  }

  /**
   * A search term made only of white space leaves the search step out:
   * with the "all" filter the list comes back unchanged, otherwise exactly
   * the devices of the chosen status remain.
   */
  lemma BlankSearchIsIdentity(list: seq<Device>, filter: StatusFilter, term: string)
    requires forall i :: 0 <= i < |term| ==> IsJsSpace(term[i])
    ensures ApplyFilters(list, All, term) == list
    ensures ApplyFilters(list, filter, term) ==
      if filter.Only? then Keep(list, StatusIs(filter.wanted)) else list
  {
    TrimEmptyIff(term);
  }

  /** The search is case-insensitive: terms equal up to ASCII case select the same devices. */
  lemma SearchIgnoresCase(list: seq<Device>, filter: StatusFilter, term1: string, term2: string)
    requires ToLower(term1) == ToLower(term2)
    ensures ApplyFilters(list, filter, term1) == ApplyFilters(list, filter, term2)
  {
    TrimLower(term1);
    TrimLower(term2);
    assert Needle(term1) == Needle(term2);
    assert |Trim(term1)| == |Needle(term1)| && |Trim(term2)| == |Needle(term2)|;
  }

  /** Filtering what the filter already returned changes nothing. */
  lemma ApplyFiltersIdempotent(list: seq<Device>, filter: StatusFilter, term: string)
    ensures ApplyFilters(ApplyFilters(list, filter, term), filter, term) == ApplyFilters(list, filter, term)
  {
    var r := ApplyFilters(list, filter, term);
    ApplyFiltersIsKeep(list, filter, term);
    ApplyFiltersIsKeep(r, filter, term);
    KeepAllIff(r, PassesWith(filter, term));
  }

  /** The number of online devices of a list, counted one device at a time. */
  function CountOnline(ds: seq<Device>): nat {
    if ds == [] then 0 else (if ds[0].status == Online then 1 else 0) + CountOnline(ds[1..])
  }

  /**
   * The summary counts: the count is `devices.filter(d => d.status ===
   * 'online').length`, it never exceeds the total, the online and offline
   * devices make up the whole list, and it is the number of cards the
   * "online" filter shows while the search box is blank.
   */
  lemma {:induction false} OnlineCountSpec(ds: seq<Device>)
    ensures CountOnline(ds) == |Keep(ds, StatusIs(Online))|
    ensures CountOnline(ds) <= |ds|
    ensures CountOnline(ds) + |Keep(ds, StatusIs(Offline))| == |ds|
    ensures CountOnline(ds) == |ApplyFilters(ds, Only(Online), "")|
  {
    if ds != [] {
      OnlineCountSpec(ds[1..]);
    }
  }

  /** The summary line `${onlineCount} online / ${totalCount} total`. */
  function SummaryText(online: nat, total: nat): string {
    Decimal(online) + " online / " + Decimal(total) + " total"
  }

  /** A company with one online and one offline device is summarised as "1 online / 2 total". */
  lemma SummaryOfMixedPair(a: Device, b: Device)
    requires a.status == Online && b.status == Offline
    ensures SummaryText(CountOnline([a, b]), |[a, b]|) == "1 online / 2 total"
  {
    assert CountOnline([a, b]) == 1 by {
      assert [a, b][1..] == [b] && [b][1..] == [];
      assert CountOnline([b]) == 0;
    }
    assert Decimal(1) == "1" && Decimal(2) == "2" by {
      assert DigitChar(1) == '1' && DigitChar(2) == '2';
    }
    assert SummaryText(1, 2) == "1" + " online / " + "2" + " total";
  }
}
