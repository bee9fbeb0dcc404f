/**
 * The two DHT11 sensory-memory managers: the serial-port one in app.py and the
 * ESP32 (HTTP) one in conversation.py.  Each keeps a snapshot dictionary of the
 * latest reading; a reading is validated, then merged into the snapshot; the
 * environmental context is read back from the snapshot.  One reading is
 * processed at a time: the reader and processor threads, the queue and the lock
 * are not part of the model.
 */
module Sensors {

  import opened Wrappers
  import opened PyStr

  /** A JSON value as the managers see it.  A number carries its value and the
      text Python prints for it. */
  datatype Value = VNone | VNum(val: real, text: string) | VText(s: string) | VList(items: seq<string>)

  /** What arrives from the sensor: a JSON object, or anything else. */
  datatype Reading = NotADict | Dict(fields: map<string, Value>)

  /** The outcome of `validate_sensor_data`: accepted, rejected, or raising
      because a reading compared a non-number with a number. */
  datatype Verdict = Accept | Reject | Raise

  type Snapshot = map<string, Value>

  /** `d.get(key, default)`. */
  function Get(d: map<string, Value>, key: string, default: Value): Value {
    if key in d then d[key] else default
  }

  /** Python truthiness of a JSON value. */
  predicate Truthy(v: Value) {
    match v
    case VNone => false
    case VNum(x, _) => x != 0.0
    case VText(s) => s != []
    case VList(items) => items != []
  }

  predicate NumOrNone(v: Value) {
    v.VNone? || v.VNum?
  }

  /** None, or a number within `[lo, hi]`. */
  predicate WithinOrNone(v: Value, lo: real, hi: real) {
    v.VNone? || (v.VNum? && lo <= v.val <= hi)
  }

  /** `v is not None and (v < lo or v > hi)`; None where the comparison raises. */
  function OutOfRange(v: Value, lo: real, hi: real): Option<bool>
  {
    match v
    case VNone => Some(false)
    case VNum(x, _) => Some(x < lo || x > hi)
    case _ => None
  }

  /** The range checks both managers run, temperature first. */
  function CheckRanges(f: map<string, Value>, tLo: real, tHi: real, hLo: real, hHi: real): (v: Verdict)
    ensures v == Accept <==> WithinOrNone(Get(f, "temperature", VNone), tLo, tHi)
                             && WithinOrNone(Get(f, "humidity", VNone), hLo, hHi)
    ensures v == Raise ==> !NumOrNone(Get(f, "temperature", VNone)) || !NumOrNone(Get(f, "humidity", VNone))
  {
    match OutOfRange(Get(f, "temperature", VNone), tLo, tHi)
    case None => Raise
    case Some(true) => Reject
    case Some(false) =>
      match OutOfRange(Get(f, "humidity", VNone), hLo, hHi)
      case None => Raise
      case Some(true) => Reject
      case Some(false) => Accept
  }

  // ---------------------------------------------------------------------------
  // Comfort score and recommendations (the same in both managers)
  // ---------------------------------------------------------------------------

  function Abs(x: real): real {
    if x < 0.0 then -x else x
  }

  /** `max(0, min(100, x))`. */
  function Clamp100(x: real): (r: real)
    ensures 0.0 <= r <= 100.0
    ensures 0.0 <= x <= 100.0 ==> r == x
  {
    if x < 0.0 then 0.0 else if x > 100.0 then 100.0 else x
  }

  /** `calculate_comfort_score`: the mean of a temperature score (10 points off
      per degree away from 23) and a humidity score (2 points off per percent away
      from 50), each clamped to [0, 100]. */
  function ComfortScore(temp: real, humidity: real): (r: real)
    ensures 0.0 <= r <= 100.0
    ensures r == 100.0 <==> temp == 23.0 && humidity == 50.0
  {
    (Clamp100(100.0 - Abs(temp - 23.0) * 10.0) + Clamp100(100.0 - Abs(humidity - 50.0) * 2.0)) / 2.0
  }

  const TooHot := "Room temperature is high - consider cooling"
  const TooCold := "Room temperature is low - consider warming"
  const TooHumid := "Humidity is high - consider dehumidifying"
  const TooDry := "Humidity is low - consider humidifying"
  const Optimal := "Environmental conditions are optimal"

  lemma AdviceDistinct()
    ensures Optimal != TooHot && Optimal != TooCold && Optimal != TooHumid && Optimal != TooDry
    ensures TooHot != TooCold && TooHumid != TooDry
    ensures TooHot != TooHumid && TooHot != TooDry && TooCold != TooHumid && TooCold != TooDry
  {
    assert Optimal[0] == 'E' && TooHot[0] == 'R' && TooCold[0] == 'R' && TooHumid[0] == 'H' && TooDry[0] == 'H';
    assert TooHot[20] == 'h' && TooCold[20] == 'l';
    assert TooHumid[12] == 'h' && TooDry[12] == 'l';
  }

  /** `get_recommendations`: one advice line for temperature out of 20..26, one
      for humidity out of 40..60, and the "optimal" line when there is neither. */
  function Recommendations(temp: real, humidity: real): (r: seq<string>)
    ensures 1 <= |r| <= 2
    ensures r == [Optimal] <==> 20.0 <= temp <= 26.0 && 40.0 <= humidity <= 60.0
    ensures (TooHot in r <==> temp > 26.0) && (TooCold in r <==> temp < 20.0)
    ensures (TooHumid in r <==> humidity > 60.0) && (TooDry in r <==> humidity < 40.0)
  {
    AdviceDistinct();
    var t := if temp > 26.0 then [TooHot] else if temp < 20.0 then [TooCold] else [];
    var h := if humidity > 60.0 then [TooHumid] else if humidity < 40.0 then [TooDry] else [];
    if t + h == [] then [Optimal]
    else
      assert t + h != [Optimal] by {
        assert (t + h)[0] != Optimal;
      }
      t + h
  }

  // ---------------------------------------------------------------------------
  // The serial-port manager (app.py)
  // ---------------------------------------------------------------------------

  /** `validate_sensor_data` of the serial-port manager: DHT11 ranges 0..50 degrees
      and 20..80 percent; a missing or None value passes. */
  function ValidateDht11(r: Reading): (v: Verdict)
    ensures v == Accept <==> r.Dict? && WithinOrNone(Get(r.fields, "temperature", VNone), 0.0, 50.0)
                                     && WithinOrNone(Get(r.fields, "humidity", VNone), 20.0, 80.0)
    ensures v == Raise ==> r.Dict?
  {
    if r.NotADict? then Reject else CheckRanges(r.fields, 0.0, 50.0, 20.0, 80.0)
  }

  const Dht11Initial: Snapshot := map["temperature" := VNone, "humidity" := VNone, "timestamp" := VNone,
    "sensor_type" := VText("DHT11"), "memory_type" := VText("SensoryMemory"), "status" := VText("disconnected")]

  /** What the snapshot must hold for the context to be computed without raising. */
  predicate WellKept(s: Snapshot) {
    "temperature" in s && "humidity" in s && "status" in s
    && NumOrNone(s["temperature"]) && NumOrNone(s["humidity"])
  }

  /** One reading through `process_sensor_data`: an accepted reading is merged
      into the snapshot key by key and stamped; anything else changes nothing. */
  function Dht11Step(s: Snapshot, r: Reading, now: string): Snapshot {
    if ValidateDht11(r) == Accept then (s + r.fields)["python_timestamp" := VText(now)] else s
  }

  lemma Dht11StepKeeps(s: Snapshot, r: Reading, now: string)
    requires WellKept(s)
    ensures WellKept(Dht11Step(s, r, now))
    ensures ValidateDht11(r) != Accept ==> Dht11Step(s, r, now) == s
    ensures ValidateDht11(r) == Accept ==>
      forall k :: k in r.fields && k != "python_timestamp" ==> Dht11Step(s, r, now)[k] == r.fields[k]
  {
  }

  /** The context the serial-port manager reports. */
  datatype Dht11Context = Dht11Context(temperature: real, humidity: real, comfortLevel: real,
                                       recommendations: seq<string>, timestamp: Value)

  /** `get_environmental_context`: only for status "valid" with both readings present. */
  function Dht11ContextOf(s: Snapshot): (c: Option<Dht11Context>)
    requires WellKept(s)
    ensures c.Some? <==> s["status"] == VText("valid") && s["temperature"].VNum? && s["humidity"].VNum?
    ensures c.Some? ==> (c.value.comfortLevel == ComfortScore(s["temperature"].val, s["humidity"].val)
                         && c.value.recommendations == Recommendations(s["temperature"].val, s["humidity"].val))
  {
    if s["status"] != VText("valid") then None
    else if s["temperature"].VNone? || s["humidity"].VNone? then None
    else
      var t, h := s["temperature"].val, s["humidity"].val;
      Some(Dht11Context(t, h, ComfortScore(t, h), Recommendations(t, h), Get(s, "timestamp", VNone)))
  }

  /** A reading the sensor marks valid, with both values, gives a context about
      exactly that reading. */
  lemma Dht11ValidReadingGivesContext(s: Snapshot, f: map<string, Value>, now: string, t: real, h: real, tt: string, ht: string)
    requires WellKept(s)
    requires Get(f, "temperature", VNone) == VNum(t, tt) && Get(f, "humidity", VNone) == VNum(h, ht)
    requires Get(f, "status", VNone) == VText("valid")
    requires 0.0 <= t <= 50.0 && 20.0 <= h <= 80.0
    ensures Dht11ContextOf(Dht11Step(s, Dict(f), now)).Some?
    ensures Dht11ContextOf(Dht11Step(s, Dict(f), now)).value.temperature == t
    ensures Dht11ContextOf(Dht11Step(s, Dict(f), now)).value.humidity == h
  {
    Dht11StepKeeps(s, Dict(f), now);
  }

  /** `connect` of the serial-port manager: "connected" after the first of three
      attempts that opens the port, "error" when all three fail. */
  function Dht11ConnectStatus(portOpened: seq<bool>): string
    requires |portOpened| == 3
  {
    if true in portOpened then "connected" else "error"
  }

  class Dht11Manager {
    var snapshot: Snapshot

    ghost predicate Valid()
      reads this
    {
      WellKept(snapshot)
    }

    constructor ()
      ensures Valid() && snapshot == Dht11Initial
    {
      snapshot := Dht11Initial;
    }

    /** `connect`, with the outcome of each of the three attempts to open the port given. */
    method Connect(portOpened: seq<bool>) returns (ok: bool)
      requires Valid() && |portOpened| == 3
      modifies this
      ensures Valid()
      ensures snapshot == old(snapshot)["status" := VText(Dht11ConnectStatus(portOpened))]
      ensures ok <==> true in portOpened
    {
      var attempt := 0;
      while attempt < 3
        invariant 0 <= attempt <= 3
        invariant snapshot == old(snapshot)
        invariant true !in portOpened[..attempt]
      {
        if portOpened[attempt] {
          snapshot := snapshot["status" := VText("connected")];
          return true;
        }
        if attempt == 2 {
          assert portOpened == portOpened[..2] + [portOpened[2]];
          snapshot := snapshot["status" := VText("error")];
          return false;
        }
        attempt := attempt + 1;
      }
      assert false;
    }

    /** One reading through `process_sensor_data`. */
    method Process(r: Reading, now: string)
      requires Valid()
      modifies this
      ensures Valid()
      ensures snapshot == Dht11Step(old(snapshot), r, now)
    {
      if ValidateDht11(r) == Accept {
        snapshot := snapshot + r.fields;
        snapshot := snapshot["python_timestamp" := VText(now)];
      }
      Dht11StepKeeps(old(snapshot), r, now);
    }

    function Context(): (c: Option<Dht11Context>)
      requires Valid()
      reads this
      ensures c.Some? <==> snapshot["status"] == VText("valid")
                           && snapshot["temperature"].VNum? && snapshot["humidity"].VNum?
      ensures c.Some? ==> c.value.temperature == snapshot["temperature"].val
                          && c.value.humidity == snapshot["humidity"].val
                          && c.value.comfortLevel == ComfortScore(c.value.temperature, c.value.humidity)
    {
      Dht11ContextOf(snapshot)
    }
  }

  // ---------------------------------------------------------------------------
  // The ESP32 manager (conversation.py)
  // ---------------------------------------------------------------------------

  /** `validate_sensor_data` of the ESP32 manager: both keys required, ranges
      -40..80 degrees and 0..100 percent; a None value passes. */
  function ValidateEsp32(r: Reading): (v: Verdict)
    ensures v == Accept <==> r.Dict? && "temperature" in r.fields && "humidity" in r.fields
                             && WithinOrNone(r.fields["temperature"], -40.0, 80.0)
                             && WithinOrNone(r.fields["humidity"], 0.0, 100.0)
  {
    if r.NotADict? then Reject
    else if "temperature" !in r.fields || "humidity" !in r.fields then Reject
    else CheckRanges(r.fields, -40.0, 80.0, 0.0, 100.0)
  }

  const Esp32Initial: Snapshot := map["temperature" := VNone, "humidity" := VNone, "timestamp" := VNone,
    "sensor_type" := VText("DHT11"), "memory_type" := VText("SensoryMemory"), "status" := VText("disconnected"),
    "comfort_score" := VNum(0.0, "0"), "recommendations" := VList([])]

  const RecommendationSep := "; "

  /** The recommendations entry: the device's text split at "; ", or [] when it is
      absent or empty; None where a non-text value makes `split` raise. */
  function DeviceRecommendations(f: map<string, Value>): (r: Option<seq<string>>)
    ensures r.None? <==> Truthy(Get(f, "recommendations", VNone)) && !Get(f, "recommendations", VNone).VText?
    ensures r == Some([]) ==> !Truthy(Get(f, "recommendations", VNone))
  {
    var v := Get(f, "recommendations", VNone);
    if !Truthy(v) then Some([])
    else if v.VText? then Some(Split(v.s, RecommendationSep))
    else None
  }

  /** One reading through the ESP32 `process_sensor_data`: an accepted reading
      replaces the listed entries (status defaulting to "valid", comfort score to
      0); a rejected one, or one whose recommendations cannot be split, changes
      nothing. */
  function Esp32Step(s: Snapshot, r: Reading, now: string): Snapshot {
    if ValidateEsp32(r) != Accept then s
    else
      match DeviceRecommendations(r.fields)
      case None => s
      case Some(recs) =>
        var f := r.fields;
        s["sensor_type" := VText("DHT11")]
         ["memory_type" := VText("SensoryMemory")]
         ["comfort_score" := Get(f, "comfort_score", VNum(0.0, "0"))]
         ["recommendations" := VList(recs)]
         ["python_timestamp" := VText(now)]
         ["esp32_ip" := Get(f, "esp32_ip", VNone)]
         ["timestamp" := Get(f, "timestamp", VNone)]
         ["status" := Get(f, "status", VText("valid"))]
         ["humidity" := Get(f, "humidity", VNone)]
         ["temperature" := Get(f, "temperature", VNone)]
  }

  lemma Esp32StepKeeps(s: Snapshot, r: Reading, now: string)
    requires WellKept(s)
    ensures WellKept(Esp32Step(s, r, now))
    ensures ValidateEsp32(r) != Accept ==> Esp32Step(s, r, now) == s
    ensures ValidateEsp32(r) == Accept && DeviceRecommendations(r.fields).Some? ==>
      var t := Esp32Step(s, r, now);
      t["temperature"] == r.fields["temperature"] && t["humidity"] == r.fields["humidity"]
      && t["status"] == Get(r.fields, "status", VText("valid"))
      && t["sensor_type"] == VText("DHT11") && t["memory_type"] == VText("SensoryMemory")
  {
  }

  /** The context the ESP32 manager reports: the snapshot's own values. */
  datatype Esp32Context = Esp32Context(temperature: Value, humidity: Value, comfortLevel: Value,
                                       recommendations: Value, timestamp: Value, esp32Ip: Value)

  /** `get_environmental_context`: for status "valid" or "connected" with both
      readings present. */
  function Esp32ContextOf(s: Snapshot): (c: Option<Esp32Context>)
    requires "status" in s
    ensures c.Some? <==> s["status"] in {VText("valid"), VText("connected")}
                         && !Get(s, "temperature", VNone).VNone? && !Get(s, "humidity", VNone).VNone?
  {
    if s["status"] !in {VText("valid"), VText("connected")} then None
    else
      var t, h := Get(s, "temperature", VNone), Get(s, "humidity", VNone);
      if t.VNone? || h.VNone? then None
      else Some(Esp32Context(t, h, Get(s, "comfort_score", VNum(0.0, "0")), Get(s, "recommendations", VList([])),
                             Get(s, "timestamp", VNone), Get(s, "esp32_ip", VNone)))
  }

  /** The recommendations text a device sends comes back unchanged when the
      context's list is joined with "; ", as `analyze_dht11_environment` does. */
  lemma Esp32RecommendationsRoundTrip(s: Snapshot, f: map<string, Value>, now: string, text: string)
    requires WellKept(s)
    requires ValidateEsp32(Dict(f)) == Accept
    requires Get(f, "recommendations", VNone) == VText(text) && text != []
    requires Get(f, "status", VText("valid")) == VText("valid")
    requires !f["temperature"].VNone? && !f["humidity"].VNone?
    ensures Esp32ContextOf(Esp32Step(s, Dict(f), now)).Some?
    ensures Join(Esp32ContextOf(Esp32Step(s, Dict(f), now)).value.recommendations.items, RecommendationSep) == text
  {
    JoinSplit(text, RecommendationSep);
  }

  /** One attempt to reach the device's status page. */
  datatype Attempt = Answered(code: int) | Unreachable

  /** `connect` of the ESP32 manager: "connected" at the first answer with code 200
      among three attempts; "error" when none succeeds and the last one cannot
      reach the device; otherwise the status stays as it was. */
  function Esp32ConnectStatus(current: Value, attempts: seq<Attempt>): Value
    requires |attempts| == 3
  {
    if Answered(200) in attempts then VText("connected")
    else if attempts[2] == Unreachable then VText("error")
    else current
  }

  class Esp32Manager {
    var snapshot: Snapshot

    ghost predicate Valid()
      reads this
    {
      WellKept(snapshot)
    }

    constructor ()
      ensures Valid() && snapshot == Esp32Initial
    {
      snapshot := Esp32Initial;
    }

    method Connect(attempts: seq<Attempt>) returns (ok: bool)
      requires Valid() && |attempts| == 3
      modifies this
      ensures Valid()
      ensures snapshot == old(snapshot)["status" := Esp32ConnectStatus(old(snapshot)["status"], attempts)]
      ensures ok <==> Answered(200) in attempts
    {
      var attempt := 0;
      while attempt < 3
        invariant 0 <= attempt <= 3
        invariant snapshot == old(snapshot)
        invariant Answered(200) !in attempts[..attempt]
        invariant attempt == 3 ==> attempts[2] != Unreachable
      {
        match attempts[attempt] {
          case Answered(code) =>
            if code == 200 {
              snapshot := snapshot["status" := VText("connected")];
              return true;
            }
          case Unreachable =>
            if attempt == 2 {
              assert attempts == attempts[..2] + [attempts[2]];
              snapshot := snapshot["status" := VText("error")];
              return false;
            }
        }
        assert attempts[..attempt + 1] == attempts[..attempt] + [attempts[attempt]];
        attempt := attempt + 1;
      }
      assert attempts[..3] == attempts;
      assert snapshot == old(snapshot)["status" := old(snapshot)["status"]];
      ok := false;
    }

    /** The reader's failure path: a request error marks the device disconnected. */
    method ReadFailed()
      requires Valid()
      modifies this
      ensures Valid()
      ensures snapshot == old(snapshot)["status" := VText("disconnected")]
    {
      snapshot := snapshot["status" := VText("disconnected")];
    }

    method Process(r: Reading, now: string)
      requires Valid()
      modifies this
      ensures Valid()
      ensures snapshot == Esp32Step(old(snapshot), r, now)
    {
      if ValidateEsp32(r) == Accept {
        var recs := DeviceRecommendations(r.fields);
        if recs.Some? {
          snapshot := Esp32Step(snapshot, r, now);
        }
      }
      Esp32StepKeeps(old(snapshot), r, now);
    }

    function Context(): (c: Option<Esp32Context>)
      requires Valid()
      reads this
      ensures c.Some? <==> snapshot["status"] in {VText("valid"), VText("connected")}
                           && !Get(snapshot, "temperature", VNone).VNone? && !Get(snapshot, "humidity", VNone).VNone?
      ensures c.Some? ==> c.value.temperature == snapshot["temperature"]
                          && c.value.humidity == snapshot["humidity"]
                          && c.value.comfortLevel == Get(snapshot, "comfort_score", VNum(0.0, "0"))
    {
      Esp32ContextOf(snapshot)
    }
  }
}
