/**
 WorkSpaces `StopWorkspacesRequest`: one presence-tracked list of stop
 requests (`Opaque` here) with an adder.
 */
module WorkSpaces {
  import opened Presence

  datatype StopWorkspacesRequest = StopWorkspacesRequest(
    stopWorkspaceRequests: Tracked<seq<Opaque>>)

  /** The HasBeenSet flags, in declaration order. */
  function Flags(p: StopWorkspacesRequest): seq<bool>
  {
    [ p.stopWorkspaceRequests.hasBeenSet ]
  }

  /** `GetServiceRequestName`: the operation name, whatever the request holds. */
  function GetServiceRequestName(p: StopWorkspacesRequest): (n: string)
    ensures n == "StopWorkspaces"
  {
    "StopWorkspaces"
  }

  /** Default construction. The constructor body is not part of this model, so
      the initial values are a parameter; the member initialisers lower every
      flag. */
  function Default(initial: StopWorkspacesRequest): (p: StopWorkspacesRequest)
    ensures true !in Flags(p)
    ensures p.stopWorkspaceRequests.value == initial.stopWorkspaceRequests.value
  {
    StopWorkspacesRequest(
      Unset(initial.stopWorkspaceRequests.value))
  }

  /** `SetStopWorkspaceRequests` (`WithStopWorkspaceRequests` has the same effect and returns the object):
      stores the value and raises only this field's flag. */
  function SetStopWorkspaceRequests(p: StopWorkspacesRequest, v: seq<Opaque>): (r: StopWorkspacesRequest)
    ensures r.stopWorkspaceRequests == Tracked(v, true)
    ensures r.(stopWorkspaceRequests := p.stopWorkspaceRequests) == p
    ensures Flags(r) == Flags(p)[0 := true]
  {
    p.(stopWorkspaceRequests := Set(p.stopWorkspaceRequests, v))
  }

  /** `AddStopWorkspaceRequests`: `push_back` at the end of the list; the flag is raised. */
  function AddStopWorkspaceRequests(p: StopWorkspacesRequest, x: Opaque): (r: StopWorkspacesRequest)
    ensures r.stopWorkspaceRequests.value == p.stopWorkspaceRequests.value + [x] && r.stopWorkspaceRequests.hasBeenSet
    ensures r.(stopWorkspaceRequests := p.stopWorkspaceRequests) == p
    ensures Flags(r) == Flags(p)[0 := true]
  {
    p.(stopWorkspaceRequests := Add(p.stopWorkspaceRequests, x))
  }

  /** `AddStopWorkspaceRequests` applied to each element of xs, in order. */
  function AddStopWorkspaceRequestsEach(p: StopWorkspacesRequest, xs: seq<Opaque>): StopWorkspacesRequest
    decreases |xs|
  {
    if xs == [] then p else AddStopWorkspaceRequestsEach(AddStopWorkspaceRequests(p, xs[0]), xs[1..])
  }

  /** Adding elements one at a time is the same as setting the list
      extended by all of them: order is kept, nothing is dropped or
      deduplicated, and no other field moves. */
  lemma {:induction false} AddStopWorkspaceRequestsEachAppends(p: StopWorkspacesRequest, xs: seq<Opaque>)
    ensures AddStopWorkspaceRequestsEach(p, xs) == p.(stopWorkspaceRequests := AddAll(p.stopWorkspaceRequests, xs))
    ensures xs != [] ==> AddStopWorkspaceRequestsEach(p, xs) == SetStopWorkspaceRequests(p, p.stopWorkspaceRequests.value + xs)
    decreases |xs|
  {
    if xs != [] {
      AddStopWorkspaceRequestsEachAppends(AddStopWorkspaceRequests(p, xs[0]), xs[1..]);
    }
    AddAllAppends(p.stopWorkspaceRequests, xs);
  }

  /** No cap is enforced: the documented limit of 25 entries can be exceeded. */
  lemma NoCapOnStopRequests(p: StopWorkspacesRequest, rs: seq<Opaque>)
    requires |rs| == 26
    ensures |AddStopWorkspaceRequestsEach(p, rs).stopWorkspaceRequests.value| > 25
  {
    AddStopWorkspaceRequestsEachAppends(p, rs);
  }
}
