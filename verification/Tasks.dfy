/** What the tasks of the binding share: every call has a number, and a cancellation token never goes back. */
module Tasks {
  type CallId = nat

  datatype Token = Armed | Cancelled
}
