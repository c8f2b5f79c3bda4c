/** The process-wide pair of rule snapshots, each replaced as a whole. */
module AppStates {
  import opened Models

  class AppState {
    /** Rules tagged for this location. */
    var rules: seq<ForwardingRule>
    /** Rules tagged for other locations only. */
    var remoteRules: seq<ForwardingRule>

    /** Both snapshots start empty. */
    constructor ()
      ensures rules == [] && remoteRules == []
    {
      rules := [];
      remoteRules := [];
    }

    /** The `Rules` setter: the new snapshot replaces the old one; the remote snapshot is untouched. */
    method SetRules(snapshot: seq<ForwardingRule>)
      modifies this
      ensures rules == snapshot
      ensures remoteRules == old(remoteRules)
    {
      rules := snapshot;
    }

    /** The `RemoteRules` setter: the new snapshot replaces the old one; the local snapshot is untouched. */
    method SetRemoteRules(snapshot: seq<ForwardingRule>)
      modifies this
      ensures remoteRules == snapshot
      ensures rules == old(rules)
    {
      remoteRules := snapshot;
    }
  }
}
