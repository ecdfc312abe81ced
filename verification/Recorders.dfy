/** The RPC messages and the passive recorder that answers them. */
module Recorders {
  import opened Proposals
  import Isr

  datatype Request = Request(slot: nat, reqStep: nat, proposal: Proposal)

  datatype Response = Response(
    slot: nat, reqStep: nat, step: nat, first: Option<Proposal>, priorAgg: Option<Proposal>)

  /** The reply to `req` from a recorder whose register is `i` once the request is recorded. */
  function Reply(i: Isr.Register, req: Request): Response {
    Response(req.slot, req.reqStep, i.step, i.first, i.priorAgg)
  }

  function Handled(i: Isr.Register, req: Request): Isr.Register {
    Isr.Record(i, req.reqStep, req.proposal)
  }

  class Recorder {
    const isr: Isr.Cell

    constructor ()
      ensures fresh(isr) && isr.State() == Isr.EMPTY
    {
      isr := new Isr.Cell();
    }

    method Handle(req: Request) returns (resp: Response)
      modifies isr
      ensures isr.State() == Handled(old(isr.State()), req)
      ensures resp == Reply(isr.State(), req)
    {
      var summary := isr.RecordCall(req.reqStep, req.proposal);
      resp := Response(req.slot, req.reqStep, summary.step, summary.first, summary.priorAgg);
    }
  }
}
