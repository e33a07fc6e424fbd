/** Vocabulary shared by the models of the TLM-2.0 modules. */
module Tlm {

  // A transaction object is identified by its address in the pool.
  type Trans = nat

  datatype Option<+T> = None | Some(value: T)

  lemma NothingIsNone(o: Option<Trans>)
    requires forall y: Trans :: o != Some(y)
    ensures o == None
  {
    match o
    case None =>
    case Some(_) =>
  }

  // Phases of the base protocol, in the order of their codes, and the targets' extended internal phase.
  datatype Phase = Uninit | BeginReq | EndReq | BeginResp | EndResp | Internal

  datatype Sync = Accepted | Updated | Completed

  // A hop is one initiator-socket to target-socket binding of the interconnect.
  datatype Hop = InitHop(i: nat) | TargHop(t: nat)

  // What can be seen on a hop: nb_transport_fw calls, nb_transport_bw calls together with
  // TLM_UPDATED returns from nb_transport_fw, and the remaining kinds of return.
  datatype Signal =
    | Forward(phase: Phase)
    | Backward(phase: Phase)
    | FwCompleted(ofRequest: bool)
    | BwUpdated(phase: Phase)
    | BwCompleted

  // `when` is the simulation time plus the annotated delay.
  datatype Event = Event(hop: Hop, trans: Trans, signal: Signal, when: nat)
}
