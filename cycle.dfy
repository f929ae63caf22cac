/** The periodic measurement cycle that ties the components together:
    sample the distance, convert it to thickness and rise, append it to the
    history; and a worked fermentation scenario through all four components. */
module Cycle {
  import opened Ints
  import Sampler
  import Calibration
  import History
  import Webhook

  /** Raw reads per measurement requested by the measure route. */
  const SAMPLES_PER_MEASUREMENT: uint8 := 5

  /** What the measure route answers. */
  datatype MeasureReply = NotCalibrated | SensorNotInitialized | Measured(distance: uint16, thickness: uint16, rise: real)

  /** The measure route: refused unless calibrated and the sensor is up; otherwise one
      averaged reading becomes a thickness and a rise against the calibrated initial
      thickness, and is appended to the history. The sensor's readiness, its successive
      readings and the clock are inputs. */
  method HandleMeasure(sensorReady: bool, readings: seq<uint16>, now: uint32,
                       cal: Calibration.CalibrationManager, data: History.DataManager)
    returns (reply: MeasureReply)
    requires |readings| >= SAMPLES_PER_MEASUREMENT
    requires data.Valid()
    modifies data, data.buffer
    ensures data.Valid() && data.buffer == old(data.buffer)
    ensures reply.Measured? <==> cal.IsCalibrated() && sensorReady
    ensures reply == NotCalibrated <==> !cal.IsCalibrated()
    ensures !reply.Measured? ==> data.history == old(data.history)
    ensures reply.Measured? ==>
              && reply.distance == Sampler.AveragedDistance(true, SAMPLES_PER_MEASUREMENT, readings)
              && reply.thickness == Calibration.DoughThickness(cal.calibrated, cal.zeroPoint, cal.offsetMm, reply.distance)
              && reply.rise == Calibration.RisePercentage(reply.thickness, Calibration.InitialDoughThickness(cal.zeroPoint, cal.doughHeight))
              && data.history == old(data.history) + [History.DataPoint(now, reply.thickness, reply.rise)]
  {
    if !cal.IsCalibrated() {
      return NotCalibrated;
    }
    if !sensorReady {
      return SensorNotInitialized;
    }
    var distance := Sampler.GetAveragedDistance(sensorReady, SAMPLES_PER_MEASUREMENT, readings);
    var thickness := cal.CalculateDoughThickness(distance);
    var initialThickness := cal.GetInitialDoughThickness();
    var rise := Calibration.RisePercentage(thickness, initialThickness);
    data.AddMeasurement(thickness, rise, now);
    reply := Measured(distance, thickness, rise);
  }

  /** Zero point 80 mm and dough at 60 mm give an initial thickness of 20 mm; a later
      reading of 50 mm gives 30 mm, a rise of exactly 50%. */
  method RiseScenario(now: uint32, later: uint32) returns (rise: real)
    ensures rise == 50.0
  {
    var cal := new Calibration.CalibrationManager(Calibration.CLEARED_RECORD);
    cal.SetZeroPoint(80);
    cal.SetDoughHeight(60, now);
    var data := new History.DataManager();
    SteadyReadings();
    var reply := HandleMeasure(true, [50, 50, 50, 50, 50], later, cal, data);
    ScenarioArithmetic();
    rise := reply.rise;
  }

  /** The thickness and rise the scenario's numbers produce. */
  lemma ScenarioArithmetic()
    ensures Calibration.AdjustedDistance(80, 0) == 80 && Calibration.AdjustedDistance(60, 0) == 60
    ensures Calibration.DoughThickness(true, 80, 0, 50) == 30
    ensures Calibration.InitialDoughThickness(80, 60) == 20
    ensures Calibration.RisePercentage(30, 20) == 50.0
  {
    Calibration.DoughThicknessSpec(true, 80, 0, 50);
    Calibration.RisePercentageSpec(30, 20);
  }

  /** A 50% rise at the start of a cycle fires the 50% notification once and only that one. */
  method NotifyScenario(rise: real) returns (first: Webhook.Attempt, second: Webhook.Attempt)
    requires rise == 50.0
    ensures first == Webhook.Send(Webhook.Rise50)
    ensures second == Webhook.NoSend
  {
    var gate := new Webhook.WebhookManager();
    gate.SetWebhookURL("https://discord.example/webhook");
    first := gate.CheckAndNotify(rise, true, true);
    second := gate.CheckAndNotify(rise, true, true);
  }

  /** Five identical readings of 50 mm sample to 50 mm. */
  lemma SteadyReadings()
    ensures Sampler.AveragedDistance(true, SAMPLES_PER_MEASUREMENT, [50, 50, 50, 50, 50]) == 50
  {
    var readings: seq<uint16> := [50, 50, 50, 50, 50];
    assert readings[..Sampler.ClampSamples(SAMPLES_PER_MEASUREMENT)] == readings;
    assert 50 in Sampler.ValidReadings(readings);
    Sampler.AllEqualReadings(SAMPLES_PER_MEASUREMENT, readings, 50);
  }

  /** With offset -5 mm a zero-point reading of 80 mm stores 75 mm; a dough reading
      beyond the zero point yields an initial thickness of 0, not a wrapped value. */
  lemma OffsetAndInvalidBaseline()
    ensures Calibration.AdjustedDistance(80, -5) == 75
    ensures Calibration.InitialDoughThickness(80, 90) == 0
    ensures Calibration.InitialDoughThicknessAsWritten(80, 90) == 65526
  {
  }
}
