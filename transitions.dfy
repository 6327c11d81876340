/**
 * The offline-to-online notifications of a refresh: the previous statuses
 * indexed by device id, and the toast messages for the devices of the new
 * list that went from "offline" to "online".
 */
module Transitions {
  import opened Wrappers
  import opened Seqs
  import opened Devices

  /**
   * `Object.fromEntries(cache.map(d => [d.device_id, d.status]))`: the entries
   * are stored from left to right, so a later device with the same id
   * overwrites an earlier one.
   */
  function StatusIndex(cache: seq<Device>): (m: map<int, Status>)
    ensures m.Keys == set d | d in cache :: d.id
  {
    if cache == [] then map[]
    else
      var last := cache[|cache| - 1];
      assert cache == cache[..|cache| - 1] + [last];
      StatusIndex(cache[..|cache| - 1])[last.id := last.status]
  }

  /** The last device of the cache with a given id decides the status recorded for that id. */
  lemma {:induction false} StatusIndexLastWins(cache: seq<Device>, i: int)
    requires 0 <= i < |cache|
    requires forall j :: i < j < |cache| ==> cache[j].id != cache[i].id
    ensures cache[i].id in StatusIndex(cache)
    ensures StatusIndex(cache)[cache[i].id] == cache[i].status
  {
    if i < |cache| - 1 {
      StatusIndexLastWins(cache[..|cache| - 1], i);
    }
  }

  /** `prev[d.device_id] === 'offline' && d.status === 'online'`. */
  predicate Flipped(prev: map<int, Status>, d: Device) {
    d.id in prev && prev[d.id] == Offline && d.status == Online
  }

  function FlippedIn(prev: map<int, Status>): Device -> bool {
    (d: Device) => Flipped(prev, d)
  }

  /**
   * How a template literal shows `d.device_name`: the name itself, or "null"
   * when the API sent a null name (the key itself is always present).
   */
  function DisplayName(d: Device): string {
    match d.name
    case Some(n) => n
    case None => "null"
  }

  /** `${d.device_name} is now online`. */
  function ToastMessage(d: Device): string {
    DisplayName(d) + " is now online"
  }

  function Messages(ds: seq<Device>): (r: seq<string>)
    ensures |r| == |ds|
  {
    seq(|ds|, i requires 0 <= i < |ds| => ToastMessage(ds[i]))
  }

  /** The messages of two lists one after the other are the messages of their concatenation. */
  lemma MessagesAppend(a: seq<Device>, b: seq<Device>)
    ensures Messages(a + b) == Messages(a) + Messages(b)
  {
  }

  /** The toasts of one refresh: a message per device of the new list that flipped, in new-list order. */
  function TransitionToasts(cache: seq<Device>, incoming: seq<Device>): seq<string> {
    Messages(Keep(incoming, FlippedIn(StatusIndex(cache))))
  }

  /** One more device of the new list adds its toast, if it flipped, after the toasts so far. */
  lemma ToastStep(prev: map<int, Status>, done: seq<Device>, d: Device)
    ensures Messages(Keep(done + [d], FlippedIn(prev)))
            == Messages(Keep(done, FlippedIn(prev))) + if Flipped(prev, d) then [ToastMessage(d)] else []
  {
    var step := Keep([d], FlippedIn(prev));
    assert step == if Flipped(prev, d) then [d] else [] by {
      assert [d][1..] == [];
    }
    KeepAppend(done, [d], FlippedIn(prev));
    MessagesAppend(Keep(done, FlippedIn(prev)), step);
  }

  /** The `forEach` of refreshDevices that raises a toast for every device that came back online. */
  method CollectToasts(cache: seq<Device>, incoming: seq<Device>) returns (toasts: seq<string>)
    ensures toasts == TransitionToasts(cache, incoming)
  {
    var prev := StatusIndex(cache);
    toasts := [];
    var i := 0;
    while i < |incoming|
      invariant 0 <= i <= |incoming|
      invariant toasts == Messages(Keep(incoming[..i], FlippedIn(prev)))
    {
      var d := incoming[i];
      ToastStep(prev, incoming[..i], d);
      assert incoming[..i + 1] == incoming[..i] + [d];
      if d.id in prev && prev[d.id] == Offline && d.status == Online {
        toasts := toasts + [ToastMessage(d)];
      }
      i := i + 1;
    }
    assert incoming[..i] == incoming;
  }

  /** Toasts for a concatenated list are the toasts of the first part followed by those of the second. */
  lemma ToastsAppend(cache: seq<Device>, a: seq<Device>, b: seq<Device>)
    ensures TransitionToasts(cache, a + b) == TransitionToasts(cache, a) + TransitionToasts(cache, b)
  {
    KeepAppend(a, b, FlippedIn(StatusIndex(cache)));
  }

  /** There are never more toasts than devices in the new list. */
  lemma ToastsBounded(cache: seq<Device>, incoming: seq<Device>)
    ensures |TransitionToasts(cache, incoming)| <= |incoming|
  {
  }

  /**
   * A single device whose id the cache last recorded at index i raises one
   * toast exactly when that cached status was offline and its new status is
   * online.
   */
  lemma ToastForCachedDevice(cache: seq<Device>, d: Device, i: int)
    requires 0 <= i < |cache| && cache[i].id == d.id
    requires forall j :: i < j < |cache| ==> cache[j].id != d.id
    ensures TransitionToasts(cache, [d]) ==
      if cache[i].status == Offline && d.status == Online then [ToastMessage(d)] else []
  {
    StatusIndexLastWins(cache, i);
  }

  /** A device that was not in the cache raises no toast. */
  lemma NoToastForNewDevice(cache: seq<Device>, d: Device)
    requires forall c :: c in cache ==> c.id != d.id
    ensures TransitionToasts(cache, [d]) == []
  {
    assert d.id !in StatusIndex(cache);
  }

  /** Cached offline, now online: exactly one toast naming the device. */
  lemma OneToastWhenBackOnline(name: string)
    ensures TransitionToasts([Device(1, Some(name), Offline, None)], [Device(1, Some(name), Online, None)])
            == [name + " is now online"]
  {
    ToastForCachedDevice([Device(1, Some(name), Offline, None)], Device(1, Some(name), Online, None), 0);
  }

  /** A device whose name is null is toasted as "null is now online". */
  lemma NullNameToast()
    ensures TransitionToasts([Device(1, None, Offline, None)], [Device(1, None, Online, None)])
            == ["null is now online"]
  {
    ToastForCachedDevice([Device(1, None, Offline, None)], Device(1, None, Online, None), 0);
    var m := "null" + " is now online";
    assert |m| == 18;
    forall i | 0 <= i < 18 ensures m[i] == "null is now online"[i] {
    }
    assert ToastMessage(Device(1, None, Online, None)) == m == "null is now online";
  }

  /** Cached online, still online: no toast. */
  lemma NoToastWhenStillOnline(name: string)
    ensures TransitionToasts([Device(1, Some(name), Online, None)], [Device(1, Some(name), Online, None)]) == []
  {
    ToastForCachedDevice([Device(1, Some(name), Online, None)], Device(1, Some(name), Online, None), 0);
  }
}
