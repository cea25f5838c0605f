/**
  The presentation lookups of the dashboard: unit for a metric, colour class
  for an alert status, icon for an alert type. Each is a total function of a
  free string with a default for every string it does not list.

  The icons are opaque symbols here (`Icon`); their text encoding is not
  part of the model.
 */
module ViewBindings {
  import opened Simulation

  /** The degree-Celsius unit string. */
  const Celsius: string := "\U{B0}C"

  /** Units of the three metrics; any other metric has the empty unit. */
  const UnitTable: map<string, string> := map[HeartRate := "bpm", SpO2 := "%", Temperature := Celsius]

  /** `getMetricUnit`. */
  function MetricUnit(metric: string): (unit: string)
    ensures unit == if metric in UnitTable then UnitTable[metric] else ""
    ensures unit != "" <==> metric in MetricOptions
  {
    if metric == HeartRate then "bpm"
    else if metric == SpO2 then "%"
    else if metric == Temperature then Celsius
    else ""
  }

  /** The alert statuses that have a colour of their own. */
  const ColorTable: map<string, string> := map["Resolved" := "success", "Pending" := "warning", "Critical" := "danger"]
  const DefaultColor: string := "info"

  /** `getStatusColor`. */
  function StatusColor(status: string): (color: string)
    ensures color == if status in ColorTable then ColorTable[status] else DefaultColor
    ensures color != DefaultColor <==> status in ColorTable
  {
    if status == "Resolved" then "success"
    else if status == "Pending" then "warning"
    else if status == "Critical" then "danger"
    else DefaultColor
  }

  /** The icons of the alert list, as opaque symbols. */
  datatype Icon = HeartIcon | ThermometerIcon | DropletIcon | WarningIcon

  /** The alert types that have an icon of their own. */
  const IconTable: map<string, Icon> := map["Fall Detected" := HeartIcon, "High Temp" := ThermometerIcon, "Low SpO2" := DropletIcon]

  /** `getAlertIcon`. */
  function AlertIcon(kind: string): (icon: Icon)
    ensures icon == if kind in IconTable then IconTable[kind] else WarningIcon
    ensures icon != WarningIcon <==> kind in IconTable
  {
    if kind == "Fall Detected" then HeartIcon
    else if kind == "High Temp" then ThermometerIcon
    else if kind == "Low SpO2" then DropletIcon
    else WarningIcon
  }
}
