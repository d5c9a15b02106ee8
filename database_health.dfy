/**
 * The database health endpoint and the data behind the health report: a probe of the database, its
 * latency turned into a health figure, and the response map in its three shapes (UP, DOWN, ERROR).
 * The probe's outcome and the clock reading are inputs.
 */
module DatabaseHealth {
  import opened Wrappers

  /** `calculateHealthPercentage(latency)`: 100 up to 100 ms, then 75, 50, 25, and 0 above one second. */
  function HealthPercentage(latency: int): (h: int)
    ensures h == 0 || h == 25 || h == 50 || h == 75 || h == 100
    ensures h == 100 <==> latency <= 100
    ensures h == 0 <==> latency > 1000
  {
    if latency > 1000 then 0
    else if latency > 500 then 25
    else if latency > 200 then 50
    else if latency > 100 then 75
    else 100
  }

  /** A slower database never gets a better figure. */
  lemma HealthNonIncreasing(a: int, b: int)
    requires a <= b
    ensures HealthPercentage(b) <= HealthPercentage(a)
  {
  }

  /** The figure at each threshold and just past it. */
  lemma HealthBoundaries()
    ensures HealthPercentage(100) == 100 && HealthPercentage(101) == 75
    ensures HealthPercentage(200) == 75 && HealthPercentage(201) == 50
    ensures HealthPercentage(500) == 50 && HealthPercentage(501) == 25
    ensures HealthPercentage(1000) == 25 && HealthPercentage(1001) == 0
  {
  }

  /** How the probe ends: the query and both metadata reads succeed after `latency` ms; a
      `SQLException` (from opening a connection or reading its metadata); or any other exception,
      which is what a failing `SELECT 1` raises, since the JDBC template wraps it. */
  datatype Probe =
    | Responded(latency: int, product: string, version: string)
    | SqlFailure(errorCode: int, sqlState: Option<string>, sqlMessage: Option<string>)
    | OtherFailure(message: Option<string>)

  /** The values the response map holds; `NullValue` is a null message. */
  datatype Value = Text(text: string) | Number(n: int) | NullValue

  function TextOrNull(s: Option<string>): Value {
    if s.Some? then Text(s.value) else NullValue
  }

  /** `checkDatabaseHealth()`: the HTTP status and the response map. */
  method CheckDatabaseHealth(probe: Probe, startTime: int) returns (status: int, response: map<string, Value>)
    ensures probe.Responded? ==>
              status == 200 &&
              response.Keys == {"status", "latencyMs", "healthPercentage", "database", "version", "timestamp"} &&
              response["status"] == Text("UP") && response["latencyMs"] == Number(probe.latency) &&
              response["healthPercentage"] == Number(HealthPercentage(probe.latency)) &&
              response["database"] == Text(probe.product) && response["version"] == Text(probe.version) &&
              response["timestamp"] == Number(startTime)
    ensures probe.SqlFailure? ==>
              status == 503 &&
              response.Keys == {"status", "error", "errorCode", "sqlState", "latencyMs", "healthPercentage", "timestamp"} &&
              response["status"] == Text("DOWN") && response["error"] == Text("Database connection failed") &&
              response["errorCode"] == Number(probe.errorCode) && response["sqlState"] == TextOrNull(probe.sqlState) &&
              response["latencyMs"] == Number(-1) && response["healthPercentage"] == Number(0) &&
              response["timestamp"] == Number(startTime)
    ensures probe.OtherFailure? ==>
              status == 500 &&
              response.Keys == {"status", "error", "latencyMs", "healthPercentage", "timestamp"} &&
              response["status"] == Text("ERROR") && response["error"] == TextOrNull(probe.message) &&
              response["latencyMs"] == Number(-1) && response["healthPercentage"] == Number(0) &&
              response["timestamp"] == Number(startTime)
  {
    response := map[];
    match probe
    case Responded(latency, product, version) =>
      response := response["status" := Text("UP")];
      response := response["latencyMs" := Number(latency)];
      response := response["healthPercentage" := Number(HealthPercentage(latency))];
      response := response["database" := Text(product)];
      response := response["version" := Text(version)];
      response := response["timestamp" := Number(startTime)];
      status := 200;
    case SqlFailure(code, state, _) =>
      status, response := HandleDatabaseError(response, startTime, code, state);
    case OtherFailure(message) =>
      status, response := HandleGenericError(response, startTime, message);
  }

  /** `handleDatabaseError`: the DOWN shape, answered with 503. */
  method HandleDatabaseError(response0: map<string, Value>, timestamp: int, errorCode: int, sqlState: Option<string>)
    returns (status: int, response: map<string, Value>)
    ensures status == 503
    ensures response == response0["status" := Text("DOWN")]["error" := Text("Database connection failed")]
                          ["errorCode" := Number(errorCode)]["sqlState" := TextOrNull(sqlState)]
                          ["latencyMs" := Number(-1)]["healthPercentage" := Number(0)]["timestamp" := Number(timestamp)]
  {
    response := response0;
    response := response["status" := Text("DOWN")];
    response := response["error" := Text("Database connection failed")];
    response := response["errorCode" := Number(errorCode)];
    response := response["sqlState" := TextOrNull(sqlState)];
    response := response["latencyMs" := Number(-1)];
    response := response["healthPercentage" := Number(0)];
    response := response["timestamp" := Number(timestamp)];
    status := 503;
  }

  /** `handleGenericError`: the ERROR shape, answered with 500. */
  method HandleGenericError(response0: map<string, Value>, timestamp: int, message: Option<string>)
    returns (status: int, response: map<string, Value>)
    ensures status == 500
    ensures response == response0["status" := Text("ERROR")]["error" := TextOrNull(message)]
                          ["latencyMs" := Number(-1)]["healthPercentage" := Number(0)]["timestamp" := Number(timestamp)]
  {
    response := response0;
    response := response["status" := Text("ERROR")];
    response := response["error" := TextOrNull(message)];
    response := response["latencyMs" := Number(-1)];
    response := response["healthPercentage" := Number(0)];
    response := response["timestamp" := Number(timestamp)];
    status := 500;
  }

  /** `getDatabaseHealthData()`: the map the PDF report lists. Its DOWN shape carries the exception's
      own message and no error code or SQL state. */
  method HealthData(probe: Probe, timestamp: int) returns (data: map<string, Value>)
    ensures probe.Responded? ==>
              data.Keys == {"status", "latencyMs", "healthPercentage", "database", "version", "timestamp"} &&
              data["status"] == Text("UP") && data["latencyMs"] == Number(probe.latency) &&
              data["healthPercentage"] == Number(HealthPercentage(probe.latency)) &&
              data["database"] == Text(probe.product) && data["version"] == Text(probe.version)
    ensures probe.SqlFailure? ==>
              data.Keys == {"status", "error", "latencyMs", "healthPercentage", "timestamp"} &&
              data["status"] == Text("DOWN") && data["error"] == TextOrNull(probe.sqlMessage) &&
              data["latencyMs"] == Number(-1) && data["healthPercentage"] == Number(0)
    ensures probe.OtherFailure? ==>
              data.Keys == {"status", "error", "latencyMs", "healthPercentage", "timestamp"} &&
              data["status"] == Text("ERROR") && data["error"] == TextOrNull(probe.message) &&
              data["latencyMs"] == Number(-1) && data["healthPercentage"] == Number(0)
    ensures data["timestamp"] == Number(timestamp)
  {
    data := map[];
    match probe
    case Responded(latency, product, version) =>
      data := data["status" := Text("UP")];
      data := data["latencyMs" := Number(latency)];
      data := data["healthPercentage" := Number(HealthPercentage(latency))];
      data := data["database" := Text(product)];
      data := data["version" := Text(version)];
      data := data["timestamp" := Number(timestamp)];
    case SqlFailure(_, _, message) =>
      data := data["status" := Text("DOWN")];
      data := data["error" := TextOrNull(message)];
      data := data["latencyMs" := Number(-1)];
      data := data["healthPercentage" := Number(0)];
      data := data["timestamp" := Number(timestamp)];
    case OtherFailure(message) =>
      data := data["status" := Text("ERROR")];
      data := data["error" := TextOrNull(message)];
      data := data["latencyMs" := Number(-1)];
      data := data["healthPercentage" := Number(0)];
      data := data["timestamp" := Number(timestamp)];
  }
}
