/** The update coordinator's refresh: fetch every configured device in turn, keep the bundles that
    came back keyed by serial number, and turn every kind of failure into one `UpdateFailed`. */
module Coordinator {
  import opened Outcomes
  import SajApi

  /** One configured device together with the decoded bodies its four requests return this cycle. */
  datatype Poll = Poll(device: SajApi.Device, responses: SajApi.Responses)

  /** Why the refresh reported `UpdateFailed` under "Error communicating with API": no device gave
      data (the inner `UpdateFailed`, caught and re-raised by `except Exception`), or an exception
      escaped `get_device_data`. */
  datatype Cause = NoDeviceData | DeviceRaised

  /** The two messages `UpdateFailed` is raised with. */
  datatype Failure = Timeout | Communication(cause: Cause)

  /** What `_async_update_data` ends with: the data dict it returns, or the `UpdateFailed` it raises. */
  datatype CycleResult = Published(data: map<string, SajApi.Bundle>) | UpdateFailed(failure: Failure)

  /** `get_device_data` for one poll. */
  function Fetch(p: Poll): SajApi.DeviceFetch {
    SajApi.DeviceDataOf(p.device, p.responses)
  }

  /** What the loop sees of one device: the serial number it keys the dict with, and what
      `get_device_data` answered. */
  datatype Reply = Reply(sn: string, fetch: SajApi.DeviceFetch)

  function Replies(polls: seq<Poll>): (r: seq<Reply>)
    ensures |r| == |polls|
  {
    if polls == [] then [] else Replies(polls[..|polls| - 1]) + [Reply(polls[|polls| - 1].device.sn, Fetch(polls[|polls| - 1]))]
  }

  /** The i-th reply is what `get_device_data` answered for the i-th device. */
  lemma {:induction false} ReplyAt(polls: seq<Poll>, i: nat)
    requires i < |polls|
    ensures Replies(polls)[i] == Reply(polls[i].device.sn, Fetch(polls[i]))
    decreases |polls|
  {
    if i < |polls| - 1 {
      ReplyAt(polls[..|polls| - 1], i);
    }
  }

  /** One turn of the loop: a fetched bundle is stored under the device's serial number (replacing
      an earlier one), a missing one leaves the dict as it is, an exception ends the loop. */
  function Step(m: map<string, SajApi.Bundle>, reply: Reply): (r: Attempt<map<string, SajApi.Bundle>>)
    ensures r.Raised? <==> reply.fetch.Throws?
    ensures reply.fetch.Fetched? ==> r == Ok(m[reply.sn := reply.fetch.bundle])
    ensures reply.fetch.Missing? ==> r == Ok(m)
  {
    match reply.fetch
    case Fetched(b) => Ok(m[reply.sn := b])
    case Missing => Ok(m)
    case Throws => Raised
  }

  /** The data dict after the loop has handled the first n replies, or Raised once one of them threw. */
  function Collect(replies: seq<Reply>, n: nat): Attempt<map<string, SajApi.Bundle>>
    requires n <= |replies|
  {
    if n == 0 then Ok(map[])
    else
      var m :- Collect(replies, n - 1);
      Step(m, replies[n - 1])
  }

  /** A timeout is given as the index of the device whose fetch the 30-second deadline cuts off, if any. */
  predicate ValidTimeout(count: nat, timeoutAt: Option<nat>) {
    timeoutAt.Some? ==> timeoutAt.value < count
  }

  /** The outcome of one refresh: the replies before the deadline are handled; an exception among
      them is a communication error, otherwise the deadline is a timeout, otherwise an empty dict is
      the "no device" failure and a non-empty one is published. */
  function Outcome(replies: seq<Reply>, timeoutAt: Option<nat>): CycleResult
    requires ValidTimeout(|replies|, timeoutAt)
  {
    var n := if timeoutAt.Some? then timeoutAt.value else |replies|;
    match Collect(replies, n)
    case Raised => UpdateFailed(Communication(DeviceRaised))
    case Ok(m) =>
      if timeoutAt.Some? then UpdateFailed(Timeout)
      else if m == map[] then UpdateFailed(Communication(NoDeviceData))
      else Published(m)
  }

  /** The refresh over the configured devices and this cycle's responses. */
  function CycleOf(polls: seq<Poll>, timeoutAt: Option<nat>): CycleResult
    requires ValidTimeout(|polls|, timeoutAt)
  {
    Outcome(Replies(polls), timeoutAt)
  }

  /** Once a reply has thrown, the loop never resumes. */
  lemma {:induction false} CollectStaysRaised(replies: seq<Reply>, i: nat, j: nat)
    requires i <= j <= |replies|
    requires Collect(replies, i).Raised?
    ensures Collect(replies, j).Raised?
    decreases j
  {
    if j > i {
      CollectStaysRaised(replies, i, j - 1);
    }
  }

  /** The first n replies raise exactly when one of them is an exception. */
  lemma {:induction false} CollectRaisedIff(replies: seq<Reply>, n: nat)
    requires n <= |replies|
    ensures Collect(replies, n).Raised? <==> exists i :: 0 <= i < n && replies[i].fetch.Throws?
  {
    if n > 0 {
      CollectRaisedIff(replies, n - 1);
      if replies[n - 1].fetch.Throws? {
        assert Collect(replies, n).Raised?;
      }
    }
  }

  /** A serial number is a key of the data dict exactly when some device with it was fetched. */
  lemma {:induction false} CollectKeys(replies: seq<Reply>, n: nat, sn: string)
    requires n <= |replies| && Collect(replies, n).Ok?
    ensures sn in Collect(replies, n).value <==>
              exists i :: 0 <= i < n && replies[i].sn == sn && replies[i].fetch.Fetched?
  {
    if n > 0 {
      CollectKeys(replies, n - 1, sn);
      if replies[n - 1].fetch.Fetched? && replies[n - 1].sn == sn {
        assert sn in Collect(replies, n).value;
      }
    }
  }

  /** A fetched bundle is what the dict holds for its serial number unless a later device with the
      same serial number was fetched too: the later one overwrites it. */
  lemma {:induction false} CollectLastWins(replies: seq<Reply>, n: nat, i: nat)
    requires i < n <= |replies| && Collect(replies, n).Ok?
    requires replies[i].fetch.Fetched?
    requires forall j :: i < j < n && replies[j].sn == replies[i].sn ==> !replies[j].fetch.Fetched?
    ensures replies[i].sn in Collect(replies, n).value
    ensures Collect(replies, n).value[replies[i].sn] == replies[i].fetch.bundle
  {
    if i < n - 1 {
      CollectLastWins(replies, n - 1, i);
    }
  }

  /** Every entry of the dict is a bundle fetched for a device with that serial number. */
  lemma {:induction false} CollectValues(replies: seq<Reply>, n: nat, sn: string)
    requires n <= |replies| && Collect(replies, n).Ok? && sn in Collect(replies, n).value
    ensures exists i :: 0 <= i < n && replies[i] == Reply(sn, SajApi.Fetched(Collect(replies, n).value[sn]))
  {
    var m := Collect(replies, n - 1).value;
    if replies[n - 1].fetch.Fetched? && replies[n - 1].sn == sn {
      assert replies[n - 1] == Reply(sn, SajApi.Fetched(Collect(replies, n).value[sn]));
    } else {
      CollectValues(replies, n - 1, sn);
      assert Collect(replies, n).value[sn] == m[sn];
    }
  }

  /** A refresh publishes exactly when no device raised, the deadline was not hit and some device
      was fetched; it then publishes the whole dict, never a partial result of a failed cycle. */
  lemma PublishedIff(replies: seq<Reply>, timeoutAt: Option<nat>)
    requires ValidTimeout(|replies|, timeoutAt)
    ensures Outcome(replies, timeoutAt).Published? <==>
              timeoutAt.None?
              && (forall i :: 0 <= i < |replies| ==> !replies[i].fetch.Throws?)
              && (exists i :: 0 <= i < |replies| && replies[i].fetch.Fetched?)
    ensures Outcome(replies, timeoutAt).Published? ==>
              Outcome(replies, timeoutAt).data == Collect(replies, |replies|).value
  {
    CollectRaisedIff(replies, |replies|);
    if Collect(replies, |replies|).Ok? {
      var m := Collect(replies, |replies|).value;
      if exists i :: 0 <= i < |replies| && replies[i].fetch.Fetched? {
        var i :| 0 <= i < |replies| && replies[i].fetch.Fetched?;
        CollectKeys(replies, |replies|, replies[i].sn);
      } else if m != map[] {
        var sn :| sn in m;
        CollectKeys(replies, |replies|, sn);
      }
    }
  }

  /** A refresh fails with the "no device" error exactly when it ran to the end and every device
      came back without its history sample. */
  lemma NoDeviceDataIff(replies: seq<Reply>, timeoutAt: Option<nat>)
    requires ValidTimeout(|replies|, timeoutAt)
    ensures Outcome(replies, timeoutAt) == UpdateFailed(Communication(NoDeviceData)) <==>
              timeoutAt.None? && forall i :: 0 <= i < |replies| ==> replies[i].fetch.Missing?
  {
    PublishedIff(replies, timeoutAt);
    CollectRaisedIff(replies, |replies|);
  }

  /** A deadline always fails the refresh, and is reported as a timeout exactly when no device
      before it raised. */
  lemma TimeoutIff(replies: seq<Reply>, k: nat)
    requires k < |replies|
    ensures Outcome(replies, Some(k)).UpdateFailed?
    ensures Outcome(replies, Some(k)) == UpdateFailed(Timeout) <==>
              forall i :: 0 <= i < k ==> !replies[i].fetch.Throws?
  {
    CollectRaisedIff(replies, k);
  }

  /** One turn of the loop body: `get_device_data`, then the dict update when it returned data. */
  method Visit(polls: seq<Poll>, i: nat, data: map<string, SajApi.Bundle>) returns (next: Attempt<map<string, SajApi.Bundle>>)
    requires i < |polls|
    ensures next == Step(data, Replies(polls)[i])
  {
    ReplyAt(polls, i);
    var p := polls[i];
    var fetched := SajApi.DeviceData(p.device, p.responses);
    if fetched.Throws? {
      return Raised;
    }
    var d := data;
    if fetched.Fetched? {
      d := d[p.device.sn := fetched.bundle];
    }
    return Ok(d);
  }

  /** `_async_update_data`: fetch the devices one after another, stopping at the deadline or at an
      exception, and report the outcome. */
  method UpdateData(polls: seq<Poll>, timeoutAt: Option<nat>) returns (r: CycleResult)
    requires ValidTimeout(|polls|, timeoutAt)
    ensures r == CycleOf(polls, timeoutAt)
  {
    ghost var replies := Replies(polls);
    var data: map<string, SajApi.Bundle> := map[];
    var i := 0;
    while i < |polls|
      invariant 0 <= i <= |polls|
      invariant timeoutAt.Some? ==> i <= timeoutAt.value
      invariant Collect(replies, i) == Ok(data)
    {
      if timeoutAt == Some(i) {
        return UpdateFailed(Timeout);
      }
      var next := Visit(polls, i, data);
      assert Collect(replies, i + 1) == next;
      if next.Raised? {
        CollectStaysRaised(replies, i + 1, if timeoutAt.Some? then timeoutAt.value else |polls|);
        return UpdateFailed(Communication(DeviceRaised));
      }
      data := next.value;
      i := i + 1;
    }
    if data == map[] {
      return UpdateFailed(Communication(NoDeviceData));
    }
    return Published(data);
  }
}
