/**
 * The resolved configuration of the check and the status values it reports.
 * The option parsing that fills the configuration is not modelled; the
 * configuration is an explicit value handed to every operation.
 */
module Plugin {

  /** The configuration values that bear on a decision. */
  datatype Config = Config(
    prometheusUrl: string,
    firingAlerts: bool,
    pendingAlerts: bool,
    labels: map<string, string>,
    annotations: map<string, string>)

  /** The check states the scheduler interprets. */
  datatype Status = OK | Warning | Critical
}
