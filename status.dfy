/** Readiness of the children and the error report written to the driver's status. */
module Status {
  import opened Wrappers
  import opened Api

  /** A node DaemonSet is ready when every pod it wants scheduled is ready. */
  predicate NodeSetReady(ds: DaemonSetStatus) {
    ds.desiredNumberScheduled == ds.numberReady
  }

  /** A controller Deployment is ready when every replica it runs is ready. */
  predicate DeploymentReady(d: DeploymentStatus) {
    d.replicas == d.readyReplicas
  }

  /** The error list: the single error of the apply phase, or none. */
  function ErrorList(specErr: Outcome): (errors: seq<string>)
    ensures |errors| <= 1
    ensures errors == [] <==> specErr.Pass?
    ensures specErr.Fail? ==> errors[0] == specErr.message
  {
    match specErr
    case Pass => []
    case Fail(message) => [message]
  }

  /** The status written at the end of a reconciliation. A child that could not be
      read (absent, or the read failed) counts as not ready. */
  function StatusOf(node: Option<DaemonSetStatus>, controller: Option<DeploymentStatus>, specErr: Outcome): (st: DriverStatus)
    ensures st.nodeReady ==> node.Some?
    ensures st.controllerReady ==> controller.Some?
    ensures node.Some? ==> (st.nodeReady <==> NodeSetReady(node.value))
    ensures controller.Some? ==> (st.controllerReady <==> DeploymentReady(controller.value))
    ensures st.errors == ErrorList(specErr)
  {
    DriverStatus(
      node.Some? && NodeSetReady(node.value),
      controller.Some? && DeploymentReady(controller.value),
      ErrorList(specErr))
  }

  /** The readiness part of the status does not depend on the error being reported. */
  lemma ReadinessIndependentOfError(node: Option<DaemonSetStatus>, controller: Option<DeploymentStatus>, e1: Outcome, e2: Outcome)
    ensures StatusOf(node, controller, e1).nodeReady == StatusOf(node, controller, e2).nodeReady
    ensures StatusOf(node, controller, e1).controllerReady == StatusOf(node, controller, e2).controllerReady
    ensures StatusOf(node, controller, e1).errors == StatusOf(node, controller, e2).errors <==> e1 == e2
  {
    if StatusOf(node, controller, e1).errors == StatusOf(node, controller, e2).errors {
      if e1.Fail? {
        assert ErrorList(e2)[0] == e1.message;
      }
    }
  }

  /** Three of three node pods ready and one of two controller replicas ready:
      the node side is ready and the controller side is not. */
  lemma MixedReadiness()
    ensures var st := StatusOf(Some(DaemonSetStatus(3, 3)), Some(DeploymentStatus(2, 1)), Pass);
      st.nodeReady && !st.controllerReady && st.errors == []
  {
  }
}
