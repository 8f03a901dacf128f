/**
 * The deliveries slice of the Redux store (store/slices/deliveriesSlice.ts):
 * the list of the driver's deliveries, the one on screen, a loading flag and
 * an error message, changed one reducer step at a time by the outcomes of
 * five async thunks that proxy the backend.
 */
module Deliveries {
  import opened Wrappers
  import opened Types
  import opened Strings

  /** The three status-changing requests a driver can send. */
  datatype Transition = Accept | Pickup | Complete

  /** An HTTP request as the thunks issue it: method and path. */
  datatype Request = Request(httpMethod: string, path: string)

  const DeliveriesPath := "/drivers/deliveries"

  function Verb(t: Transition): string {
    match t
    case Accept => "accept"
    case Pickup => "pickup"
    case Complete => "complete"
  }

  /** `/drivers/deliveries/${id}` */
  function DeliveryPath(id: string): string {
    DeliveriesPath + "/" + id
  }

  /**
   * `/drivers/deliveries/${id}/accept`, `/pickup` or `/complete`: the path
   * names exactly one delivery and one transition, and both can be read
   * back from it. The client never asks for a status by value.
   */
  function TransitionPath(t: Transition, id: string): (r: string)
    ensures DeliveryPath(id) + "/" <= r
    ensures ParseTransitionPath(r) == Some((t, id))
  {
    TransitionPathParsesBack(t, id);
    DeliveryPath(id) + "/" + Verb(t)
  }

  /** The requests the five thunks send. */
  const FetchDeliveriesRequest := Request("GET", DeliveriesPath)

  function FetchDeliveryRequest(id: string): Request {
    Request("GET", DeliveryPath(id))
  }

  /** A transition is a PATCH whose path reads back as that transition on that delivery. */
  function TransitionRequest(t: Transition, id: string): (r: Request)
    ensures r.httpMethod == "PATCH"
    ensures ParseTransitionPath(r.path) == Some((t, id))
  {
    Request("PATCH", TransitionPath(t, id))
  }

  /** The message each thunk rejects with when the server sent none. */
  const FetchDeliveriesFallback := "Failed to fetch deliveries"
  const FetchDeliveryFallback := "Failed to fetch delivery details"

  function TransitionFallback(t: Transition): (r: string)
    ensures "Failed to " <= r
  {
    match t
    case Accept => "Failed to accept delivery"
    case Pickup => "Failed to mark as picked up"
    case Complete => "Failed to complete delivery"
  }

  /**
   * What a thunk dispatches once its request has settled: the server's
   * reply as it came, or `error.response?.data?.message || fallback`.
   */
  function ThunkOutcome<T>(reply: Result<T, ApiError>, fallback: string): (r: Phase<T>)
    ensures reply.Success? <==> r.Fulfilled?
    ensures reply.Success? ==> r.payload == reply.value
    ensures reply.Failure? && Truthy(ResponseMessage(reply.error)) ==>
              r == Rejected(ResponseMessage(reply.error).value)
    ensures reply.Failure? && !Truthy(ResponseMessage(reply.error)) ==> r == Rejected(fallback)
  {
    match reply
    case Success(v) => Fulfilled(v)
    case Failure(e) => Rejected(FirstTruthy([ResponseMessage(e)], fallback))
  }

  /**
   * Reference definition of the write-back: the first delivery with the
   * payload's id is replaced by the payload; without one, nothing changes.
   */
  function WrittenBack(s: seq<Delivery>, d: Delivery): seq<Delivery>
    decreases |s|
  {
    if s == [] then []
    else if s[0].id == d.id then [d] + s[1..]
    else [s[0]] + WrittenBack(s[1..], d)
  }

  lemma {:induction false} WrittenBackReplacesFirstMatch(s: seq<Delivery>, d: Delivery, i: nat)
    requires i < |s| && s[i].id == d.id
    requires forall j :: 0 <= j < i ==> s[j].id != d.id
    ensures WrittenBack(s, d) == s[i := d]
    decreases |s|
  {
    if i > 0 {
      WrittenBackReplacesFirstMatch(s[1..], d, i - 1);
      assert s[1..][i - 1 := d] == s[i := d][1..];
    }
  }

  lemma {:induction false} WrittenBackWithoutMatch(s: seq<Delivery>, d: Delivery)
    requires forall j :: 0 <= j < |s| ==> s[j].id != d.id
    ensures WrittenBack(s, d) == s
    decreases |s|
  {
    if s != [] {
      WrittenBackWithoutMatch(s[1..], d);
    }
  }

  /** The write-back keeps the length and brings in nothing but the payload. */
  lemma {:induction false} WrittenBackOnlyFromPayload(s: seq<Delivery>, d: Delivery)
    ensures |WrittenBack(s, d)| == |s|
    ensures forall x :: x in WrittenBack(s, d) ==> x in s || x == d
    decreases |s|
  {
    if s != [] {
      WrittenBackOnlyFromPayload(s[1..], d);
    }
  }

  /**
   * `state.deliveries.findIndex(d => d.id === id)`: the index of the first
   * delivery with that id, or -1.
   */
  method FindIndexById(s: seq<Delivery>, id: int) returns (index: int)
    ensures -1 <= index < |s|
    ensures index >= 0 ==> s[index].id == id && forall j :: 0 <= j < index ==> s[j].id != id
    ensures index == -1 ==> forall j :: 0 <= j < |s| ==> s[j].id != id
  {
    var k := 0;
    while k < |s|
      invariant 0 <= k <= |s|
      invariant forall j :: 0 <= j < k ==> s[j].id != id
    {
      if s[k].id == id {
        return k;
      }
      k := k + 1;
    }
    return -1;
  }

  /** The actions the slice's reducer receives. */
  datatype DeliveriesAction =
    | ClearCurrentDeliveryAction
    | ClearErrorAction
    | FetchDeliveriesAction(listPhase: Phase<seq<Delivery>>)
    | FetchDeliveryByIdAction(phase: Phase<Delivery>)
    | TransitionAction(transition: Transition, phase: Phase<Delivery>)

  /** The delivery records an action brings from the server. */
  function Payloads(a: DeliveriesAction): seq<Delivery> {
    match a
    case FetchDeliveriesAction(Fulfilled(list)) => list
    case FetchDeliveryByIdAction(Fulfilled(d)) => [d]
    case TransitionAction(_, Fulfilled(d)) => [d]
    case _ => []
  }

  /** The slice's state as a value. */
  datatype DeliveriesState = DeliveriesState(
    deliveries: seq<Delivery>,
    currentDelivery: Option<Delivery>,
    loading: bool,
    error: Option<string>)

  /**
   * The slice's reducer as a function: the state after one action. The
   * pending and rejected outcomes of pickup and complete have no case and
   * leave the state as it was.
   */
  function Reduce(s: DeliveriesState, a: DeliveriesAction): DeliveriesState {
    match a
    case ClearCurrentDeliveryAction => s.(currentDelivery := None)
    case ClearErrorAction => s.(error := None)
    case FetchDeliveriesAction(Pending) => s.(loading := true, error := None)
    case FetchDeliveriesAction(Fulfilled(list)) => s.(loading := false, deliveries := list)
    case FetchDeliveriesAction(Rejected(m)) => s.(loading := false, error := Some(m))
    case FetchDeliveryByIdAction(Pending) => s.(loading := true, error := None)
    case FetchDeliveryByIdAction(Fulfilled(d)) => s.(loading := false, currentDelivery := Some(d))
    case FetchDeliveryByIdAction(Rejected(m)) => s.(loading := false, error := Some(m))
    case TransitionAction(Accept, Pending) => s.(loading := true, error := None)
    case TransitionAction(Accept, Fulfilled(d)) =>
      s.(loading := false, currentDelivery := Some(d), deliveries := WrittenBack(s.deliveries, d))
    case TransitionAction(Accept, Rejected(m)) => s.(loading := false, error := Some(m))
    case TransitionAction(_, Fulfilled(d)) =>
      s.(currentDelivery := Some(d), deliveries := WrittenBack(s.deliveries, d))
    case TransitionAction(_, _) => s
  }

  /** Pickup and complete never touch `loading` or `error`, and only their fulfilment changes anything. */
  lemma PickupAndCompleteLeaveRequestFlags(s: DeliveriesState, t: Transition, p: Phase<Delivery>)
    requires t != Accept
    ensures Reduce(s, TransitionAction(t, p)).loading == s.loading
    ensures Reduce(s, TransitionAction(t, p)).error == s.error
    ensures !p.Fulfilled? ==> Reduce(s, TransitionAction(t, p)) == s
  {
  }

  /**
   * Every handled rejection ends loading and records its message; no
   * rejection touches the list or the delivery on screen.
   */
  lemma RejectionsKeepRecords(s: DeliveriesState, a: DeliveriesAction, m: string)
    requires a == FetchDeliveriesAction(Rejected(m)) || a == FetchDeliveryByIdAction(Rejected(m)) ||
             (a.TransitionAction? && a.phase == Rejected(m))
    ensures Reduce(s, a).deliveries == s.deliveries
    ensures Reduce(s, a).currentDelivery == s.currentDelivery
    ensures !(a.TransitionAction? && a.transition != Accept) ==>
              !Reduce(s, a).loading && Reduce(s, a).error == Some(m)
  {
  }

  /**
   * No action brings a delivery into the store except from the server's
   * payloads: every record listed or on screen afterwards was there before
   * or came with the action.
   */
  lemma {:induction false} RecordsComeFromServer(s: DeliveriesState, a: DeliveriesAction)
    ensures forall x :: x in Reduce(s, a).deliveries ==> x in s.deliveries || x in Payloads(a)
    ensures Reduce(s, a).currentDelivery == s.currentDelivery || Reduce(s, a).currentDelivery == None ||
            Reduce(s, a).currentDelivery.value in Payloads(a)
  {
    if a.TransitionAction? && a.phase.Fulfilled? {
      WrittenBackOnlyFromPayload(s.deliveries, a.phase.payload);
    }
  }

  /** The slice's state, updated in place by its reducers. */
  class DeliveriesStore {
    var deliveries: seq<Delivery>
    var currentDelivery: Option<Delivery>
    var loading: bool
    var error: Option<string>

    constructor ()
      ensures deliveries == [] && currentDelivery == None && !loading && error == None
    {
      deliveries := [];
      currentDelivery := None;
      loading := false;
      error := None;
    }

    /** `clearCurrentDelivery` */
    method ClearCurrentDelivery()
      modifies this
      ensures currentDelivery == None
      ensures deliveries == old(deliveries) && loading == old(loading) && error == old(error)
    {
      currentDelivery := None;
    }

    /** `clearError` */
    method ClearError()
      modifies this
      ensures error == None
      ensures deliveries == old(deliveries) && currentDelivery == old(currentDelivery)
      ensures loading == old(loading)
    {
      error := None;
    }

    /** The `pending` case of fetchDeliveries, fetchDeliveryById and acceptDelivery. */
    method StartRequest()
      modifies this
      ensures loading && error == None
      ensures deliveries == old(deliveries) && currentDelivery == old(currentDelivery)
    {
      loading := true;
      error := None;
    }

    /** The `rejected` case of fetchDeliveries, fetchDeliveryById and acceptDelivery. */
    method FailRequest(message: string)
      modifies this
      ensures !loading && error == Some(message)
      ensures deliveries == old(deliveries) && currentDelivery == old(currentDelivery)
    {
      loading := false;
      error := Some(message);
    }

    /** `fetchDeliveries.fulfilled`: the list becomes the server's list. */
    method ReceiveDeliveries(list: seq<Delivery>)
      modifies this
      ensures !loading && deliveries == list
      ensures currentDelivery == old(currentDelivery) && error == old(error)
    {
      loading := false;
      deliveries := list;
    }

    /** `fetchDeliveryById.fulfilled`: the record on screen becomes the server's; the list is not touched. */
    method ReceiveDelivery(d: Delivery)
      modifies this
      ensures !loading && currentDelivery == Some(d)
      ensures deliveries == old(deliveries) && error == old(error)
    {
      loading := false;
      currentDelivery := Some(d);
    }

    /**
     * `pickupDelivery.fulfilled` and `completeDelivery.fulfilled`: the server's
     * record goes on screen and is written back over the first list entry
     * with its id. Neither `loading` nor `error` is touched.
     */
    method ReceiveTransitionResult(d: Delivery)
      modifies this
      ensures currentDelivery == Some(d)
      ensures deliveries == WrittenBack(old(deliveries), d)
      ensures loading == old(loading) && error == old(error)
    {
      currentDelivery := Some(d);
      var index := FindIndexById(deliveries, d.id);
      if index != -1 {
        WrittenBackReplacesFirstMatch(deliveries, d, index);
        deliveries := deliveries[index := d];
      } else {
        WrittenBackWithoutMatch(deliveries, d);
      }
    }

    /** `acceptDelivery.fulfilled`: as a transition result, and the request is no longer loading. */
    method ReceiveAccepted(d: Delivery)
      modifies this
      ensures !loading && currentDelivery == Some(d)
      ensures deliveries == WrittenBack(old(deliveries), d)
      ensures error == old(error)
    {
      loading := false;
      ReceiveTransitionResult(d);
    }

    /** The fields as one value. */
    function State(): DeliveriesState
      reads this
    {
      DeliveriesState(deliveries, currentDelivery, loading, error)
    }

    /** The slice's reducer: one action, applied in place, gives the state `Reduce` specifies. */
    method Dispatch(a: DeliveriesAction)
      modifies this
      ensures State() == Reduce(old(State()), a)
    {
      match a {
        case ClearCurrentDeliveryAction =>
          ClearCurrentDelivery();
        case ClearErrorAction =>
          ClearError();
        case FetchDeliveriesAction(phase) =>
          match phase {
            case Pending => StartRequest();
            case Fulfilled(list) => ReceiveDeliveries(list);
            case Rejected(message) => FailRequest(message);
          }
        case FetchDeliveryByIdAction(phase) =>
          match phase {
            case Pending => StartRequest();
            case Fulfilled(d) => ReceiveDelivery(d);
            case Rejected(message) => FailRequest(message);
          }
        case TransitionAction(t, phase) =>
          match (t, phase) {
            case (Accept, Pending) => StartRequest();
            case (Accept, Fulfilled(d)) => ReceiveAccepted(d);
            case (Accept, Rejected(message)) => FailRequest(message);
            case (_, Fulfilled(d)) => ReceiveTransitionResult(d);
            case (_, _) =>
          }
      }
    }
  }

  /** `s` without `suffix`, when `s` ends with it. */
  function StripSuffix(s: string, suffix: string): Option<string> {
    if |suffix| <= |s| && s[|s| - |suffix|..] == suffix then Some(s[..|s| - |suffix|]) else None
  }

  lemma StripSuffixOfConcat(a: string, b: string)
    ensures StripSuffix(a + b, b) == Some(a)
  {
    assert (a + b)[|a|..] == b && (a + b)[..|a|] == a;
  }

  lemma StripSuffixLastCharDiffers(a: string, b: string, c: string)
    requires |b| > 0 && |c| > 0 && b[|b| - 1] != c[|c| - 1]
    ensures StripSuffix(a + b, c) == None
  {
    var s := a + b;
    if |c| <= |s| {
      assert s[|s| - |c|..][|c| - 1] == s[|s| - 1] == b[|b| - 1];
    }
  }

  /** Inverse of TransitionPath, recovering the transition and the id from a path. */
  function ParseTransitionPath(path: string): Option<(Transition, string)> {
    var prefix := DeliveriesPath + "/";
    if !(prefix <= path) then None
    else
      var rest := path[|prefix|..];
      match StripSuffix(rest, "/" + Verb(Accept))
      case Some(id) => Some((Accept, id))
      case None =>
        match StripSuffix(rest, "/" + Verb(Pickup))
        case Some(id) => Some((Pickup, id))
        case None =>
          match StripSuffix(rest, "/" + Verb(Complete))
          case Some(id) => Some((Complete, id))
          case None => None
  }

  lemma TransitionPathParsesBack(t: Transition, id: string)
    ensures ParseTransitionPath(DeliveryPath(id) + "/" + Verb(t)) == Some((t, id))
  {
    var prefix := DeliveriesPath + "/";
    var suffix := "/" + Verb(t);
    var path := DeliveryPath(id) + "/" + Verb(t);
    assert path == prefix + (id + suffix);
    assert path[|prefix|..] == id + suffix;
    StripSuffixOfConcat(id, suffix);
    var accept, pickup := "/" + Verb(Accept), "/" + Verb(Pickup);
    assert accept[|accept| - 1] == 't' && pickup[|pickup| - 1] == 'p';
    match t
    case Accept =>
    case Pickup =>
      StripSuffixLastCharDiffers(id, suffix, accept);
    case Complete =>
      assert suffix[|suffix| - 1] == 'e';
      StripSuffixLastCharDiffers(id, suffix, accept);
      StripSuffixLastCharDiffers(id, suffix, pickup);
  }

  /**
   * The two reads are GETs and the three transitions are PATCHes, and a
   * transition is addressed below the path that reads the same delivery.
   */
  lemma ReadsAreGetsTransitionsArePatches(t: Transition, id: string)
    ensures FetchDeliveriesRequest.httpMethod == "GET" && FetchDeliveriesRequest.path == DeliveriesPath
    ensures FetchDeliveryRequest(id).httpMethod == "GET"
    ensures TransitionRequest(t, id).httpMethod == "PATCH"
    ensures FetchDeliveryRequest(id).path + "/" <= TransitionRequest(t, id).path
  {
  }

  /** A fulfilled transition carries the server's record unchanged: the client never sets a status. */
  lemma TransitionOutcomeIsServerRecord(t: Transition, reply: Result<Delivery, ApiError>)
    requires reply.Success?
    ensures ThunkOutcome(reply, TransitionFallback(t)) == Fulfilled(reply.value)
  {
  }

  /** Every rejection of the five thunks carries a non-empty message. */
  lemma RejectionsAreNeverSilent<T>(reply: Result<T, ApiError>, t: Transition)
    requires reply.Failure?
    ensures ThunkOutcome(reply, FetchDeliveriesFallback).message != ""
    ensures ThunkOutcome(reply, FetchDeliveryFallback).message != ""
    ensures ThunkOutcome(reply, TransitionFallback(t)).message != ""
  {
  }

  /**
   * A delivery 42 marked picked up: the request is `PATCH
   * /drivers/deliveries/42/pickup` and the server's record, with its new
   * status, is what the store then shows.
   */
  lemma PickupScenario(d: Delivery)
    requires d.id == 42 && d.status == PickedUp
    ensures TransitionRequest(Pickup, "42") == Request("PATCH", "/drivers/deliveries/42/pickup")
    ensures ThunkOutcome(Success(d), TransitionFallback(Pickup)) == Fulfilled(d)
    ensures WrittenBack([d.(status := Accepted)], d) == [d]
  {
  }
}
