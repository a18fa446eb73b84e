/**
 * The records the alert engine reads and writes: one sensor reading of a
 * farm, and one alert raised about a farm.
 */
module Types {

  datatype Region = North | Center | South

  datatype Crop = Olives | Cereals | Dates | Other

  /** One timestamped sample of a farm's sensors. Temperature in degrees C,
      soil moisture in percent, rainfall in mm. Timestamps are ISO-8601 text. */
  datatype SensorData = SensorData(
    id: string,
    farmId: string,
    timestamp: string,
    temperature: real,
    soilMoisture: real,
    rainfall: real,
    region: Region,
    crop: Crop)

  datatype AlertType = Drought | WaterStress | Flood | IrrigationFailure

  datatype Severity = Low | Medium | High

  /** Where an alert stands in the microinsurance claim workflow. */
  datatype MicroinsuranceStatus = None | Pending | Approved | Rejected

  /** A detected event. The generated identifier of the program's Alert record is
      not part of the model; two alerts are compared on every other field. */
  datatype Alert = Alert(
    farmId: string,
    kind: AlertType,
    severity: Severity,
    triggeredAt: string,
    resolved: bool,
    microinsuranceStatus: MicroinsuranceStatus)
}
