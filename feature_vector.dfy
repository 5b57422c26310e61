/**
 * The 11-column input row that the dashboard hands to the loaded regressor
 * (app.py, lines 39-70). Three of the columns are fixed or derived rather than
 * entered: the ambient temperature and the voltage are constants, and the
 * current load is a linear proxy of the CPU usage.
 */
module FeatureVector {
  import opened Wrappers

  /** What the operator enters on the dashboard (app.py:27-34). */
  datatype ServerInputs = ServerInputs(
    cpuUsage: real,
    cpuFrequency: real,
    memoryUsage: real,
    diskUsage: real,
    processCount: int,
    threadCount: int,
    gpuTemperature: real,
    prevCpuTemperature: real)

  /** One named column of the single-row input frame. */
  type Feature = (string, real)

  const AmbientTemperature: real := 25.0
  const Voltage: real := 12.0
  /** The current-load proxy per percent of CPU usage. */
  const LoadPerUsage: real := 0.1

  /** The column names, in the order app.py:58-70 lists them. */
  const Schema: seq<string> := [
    "CPU_Usage", "CPU_Frequency", "Memory_Usage", "Disk_Usage",
    "Process_Count", "Thread_Count", "GPU_Temperature",
    "Ambient_Temperature", "Voltage", "Current_Load", "Prev_CPU_Temperature"
  ]

  function Names(fv: seq<Feature>): seq<string> {
    seq(|fv|, i requires 0 <= i < |fv| => fv[i].0)
  }

  predicate Distinct(ns: seq<string>) {
    forall j, k :: 0 <= j < k < |ns| ==> ns[j] != ns[k]
  }

  /** The value of the first column called `name`, as a by-name column lookup. */
  function FeatureValue(fv: seq<Feature>, name: string): Option<real> {
    if fv == [] then None
    else if fv[0].0 == name then Some(fv[0].1)
    else FeatureValue(fv[1..], name)
  }

  function CurrentLoad(cpuUsage: real): real {
    cpuUsage * LoadPerUsage
  }

  /** The single-row input frame of app.py:46-70. */
  function BuildFeatures(x: ServerInputs): (fv: seq<Feature>)
    ensures |fv| == |Schema| == 11
    ensures Names(fv) == Schema
  {
    [ ("CPU_Usage", x.cpuUsage),
      ("CPU_Frequency", x.cpuFrequency),
      ("Memory_Usage", x.memoryUsage),
      ("Disk_Usage", x.diskUsage),
      ("Process_Count", x.processCount as real),
      ("Thread_Count", x.threadCount as real),
      ("GPU_Temperature", x.gpuTemperature),
      ("Ambient_Temperature", AmbientTemperature),
      ("Voltage", Voltage),
      ("Current_Load", CurrentLoad(x.cpuUsage)),
      ("Prev_CPU_Temperature", x.prevCpuTemperature) ]
  }

  /**
   * The inverse of BuildFeatures: recovers the operator's inputs from a row
   * that has the 11 column names and whose derived columns are consistent.
   */
  function ParseFeatures(fv: seq<Feature>): Option<ServerInputs> {
    if |fv| == 11 && Names(fv) == Schema
       && fv[4].1 == fv[4].1.Floor as real && fv[5].1 == fv[5].1.Floor as real
       && fv[7].1 == AmbientTemperature && fv[8].1 == Voltage
       && fv[9].1 == CurrentLoad(fv[0].1)
    then Some(ServerInputs(fv[0].1, fv[1].1, fv[2].1, fv[3].1,
                           fv[4].1.Floor, fv[5].1.Floor, fv[6].1, fv[10].1))
    else None
  }

  lemma SchemaIsDistinct()
    ensures Distinct(Schema)
  {}

  /** In a row whose names are distinct, looking a column up by name finds its own value. */
  lemma {:induction false} LookupByDistinctName(fv: seq<Feature>, i: nat)
    requires Distinct(Names(fv))
    requires i < |fv|
    ensures FeatureValue(fv, fv[i].0) == Some(fv[i].1)
  {
    if i > 0 {
      assert Names(fv)[0] != Names(fv)[i];
      assert Names(fv[1..]) == Names(fv)[1..];
      LookupByDistinctName(fv[1..], i - 1);
    }
  }

  /** Looking up a name that is not a column finds nothing. */
  lemma {:induction false} LookupAbsentName(fv: seq<Feature>, name: string)
    requires name !in Names(fv)
    ensures FeatureValue(fv, name) == None
  {
    if fv != [] {
      assert Names(fv)[0] == fv[0].0;
      assert Names(fv[1..]) == Names(fv)[1..];
      LookupAbsentName(fv[1..], name);
    }
  }

  /**
   * Every column of the built row holds the corresponding input; the
   * ambient temperature is 25, the voltage 12 and the current load exactly
   * a tenth of the CPU usage.
   */
  lemma BuildFeaturesByName(x: ServerInputs)
    ensures var fv := BuildFeatures(x);
      FeatureValue(fv, "CPU_Usage") == Some(x.cpuUsage)
      && FeatureValue(fv, "CPU_Frequency") == Some(x.cpuFrequency)
      && FeatureValue(fv, "Memory_Usage") == Some(x.memoryUsage)
      && FeatureValue(fv, "Disk_Usage") == Some(x.diskUsage)
      && FeatureValue(fv, "Process_Count") == Some(x.processCount as real)
      && FeatureValue(fv, "Thread_Count") == Some(x.threadCount as real)
      && FeatureValue(fv, "GPU_Temperature") == Some(x.gpuTemperature)
      && FeatureValue(fv, "Ambient_Temperature") == Some(25.0)
      && FeatureValue(fv, "Voltage") == Some(12.0)
      && FeatureValue(fv, "Current_Load") == Some(x.cpuUsage * 0.1)
      && FeatureValue(fv, "Prev_CPU_Temperature") == Some(x.prevCpuTemperature)
  {
    var fv := BuildFeatures(x);
    SchemaIsDistinct();
    LookupByDistinctName(fv, 0);
    LookupByDistinctName(fv, 1);
    LookupByDistinctName(fv, 2);
    LookupByDistinctName(fv, 3);
    LookupByDistinctName(fv, 4);
    LookupByDistinctName(fv, 5);
    LookupByDistinctName(fv, 6);
    LookupByDistinctName(fv, 7);
    LookupByDistinctName(fv, 8);
    LookupByDistinctName(fv, 9);
    LookupByDistinctName(fv, 10);
  }

  /** The built row has no column outside the 11 names. */
  lemma BuildFeaturesHasOnlySchema(x: ServerInputs, name: string)
    requires name !in Schema
    ensures FeatureValue(BuildFeatures(x), name) == None
  {
    LookupAbsentName(BuildFeatures(x), name);
  }

  /** Building and then parsing gives back the operator's inputs. */
  lemma ParseBuildRoundTrip(x: ServerInputs)
    ensures ParseFeatures(BuildFeatures(x)) == Some(x)
  {}

  /** A row that parses is exactly the row built from what it parses to. */
  lemma BuildParseRoundTrip(fv: seq<Feature>)
    requires ParseFeatures(fv).Some?
    ensures BuildFeatures(ParseFeatures(fv).value) == fv
  {
    var x := ParseFeatures(fv).value;
    var built := BuildFeatures(x);
    forall i | 0 <= i < 11
      ensures built[i] == fv[i]
    {
      assert Names(fv)[i] == fv[i].0;
    }
  }
}
