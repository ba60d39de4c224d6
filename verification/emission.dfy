/** The Emission collection: one telemetry sample per tracked session, owned by a user,
    with the energy, emissions and duration the desktop tracker measured. */
module EmissionModel {
  import opened Common

  datatype EmissionMetadata = EmissionMetadata(
    country: Option<string>,
    region: Option<string>,
    powerSource: Option<string>,
    cpuUsage: Option<real>,
    ramUsage: Option<real>)

  const NoEmissionMetadata: EmissionMetadata := EmissionMetadata(None, None, None, None, None)

  datatype Emission = Emission(
    id: nat,
    user: UserId,
    sessionId: string,
    deviceId: string,
    timestamp: int,
    energyKWh: real,
    emissionsGCO2: real,
    durationSeconds: real,
    metadata: EmissionMetadata)

  /** A telemetry document as handed to the store, before defaults and validation. */
  datatype EmissionDraft = EmissionDraft(
    user: UserId,
    sessionId: string,
    deviceId: string,
    timestamp: Option<int>,
    energyKWh: Option<real>,
    emissionsGCO2: Option<real>,
    durationSeconds: Option<real>,
    metadata: EmissionMetadata)

  /** Required identifiers are present and every measured quantity is non-negative. */
  ghost predicate ValidEmission(e: Emission) {
    && e.user != ""
    && e.sessionId != ""
    && e.deviceId != ""
    && e.energyKWh >= 0.0
    && e.emissionsGCO2 >= 0.0
    && e.durationSeconds >= 0.0
  }

  predicate DraftRejected(d: EmissionDraft) {
    || d.user == ""
    || d.sessionId == ""
    || d.deviceId == ""
    || d.energyKWh.None? || d.energyKWh.value < 0.0
    || d.emissionsGCO2.None? || d.emissionsGCO2.value < 0.0
    || d.durationSeconds.None? || d.durationSeconds.value < 0.0
  }

  /** `new Emission(...)` then `save()`: the timestamp defaults to now, then the schema's
      required fields and minimums are checked. */
  function CreateEmission(d: EmissionDraft, id: nat, now: int): (r: Result<Emission, SchemaError>)
    ensures r.Failure? <==> DraftRejected(d)
    ensures r.Success? ==> ValidEmission(r.value)
    ensures r.Success? ==>
      && r.value.id == id && r.value.user == d.user
      && r.value.sessionId == d.sessionId && r.value.deviceId == d.deviceId
      && r.value.timestamp == d.timestamp.GetOr(now)
      && r.value.energyKWh == d.energyKWh.value
      && r.value.emissionsGCO2 == d.emissionsGCO2.value
      && r.value.durationSeconds == d.durationSeconds.value
      && r.value.metadata == d.metadata
  {
    if d.user == "" then Failure(Missing("user"))
    else if d.sessionId == "" then Failure(Missing("sessionId"))
    else if d.deviceId == "" then Failure(Missing("deviceId"))
    else if d.energyKWh.None? then Failure(Missing("energyKWh"))
    else if d.energyKWh.value < 0.0 then Failure(BelowMinimum("energyKWh"))
    else if d.emissionsGCO2.None? then Failure(Missing("emissionsGCO2"))
    else if d.emissionsGCO2.value < 0.0 then Failure(BelowMinimum("emissionsGCO2"))
    else if d.durationSeconds.None? then Failure(Missing("durationSeconds"))
    else if d.durationSeconds.value < 0.0 then Failure(BelowMinimum("durationSeconds"))
    else
      Success(Emission(id, d.user, d.sessionId, d.deviceId, d.timestamp.GetOr(now),
                       d.energyKWh.value, d.emissionsGCO2.value, d.durationSeconds.value,
                       d.metadata))
  }
}
