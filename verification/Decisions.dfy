/** What can be decided about a payment (jobs/transactionJobHandler.js, broker and systems). */
module Decisions {
  import opened Wrappers

  datatype Route = RouteInternal | RouteExternalProcessor | RouteCardNetwork | RouteExternal | RouteUnknown

  datatype SystemResult = SystemResult(system: string, details: Option<string>, balance: Option<real>)

  datatype Decision =
    | Completed(route: Route, result: SystemResult)
    | Declined(via: Option<Route>, reason: string)
    | Failed(reason: string)
}
