/** The configuration constants of parameters.py that the recording pipeline
    reads. */
module Parameters {

  /** Extension of every numeric data file. */
  const DataFileExt: string := "dat"

  /** The kinds of output file, one per slot of an open run, in slot order.
      The analog card's kind comes first and the log comes last. */
  const DataFileTypes: seq<string> := ["bnc", "tmp", "mag", "log"]

  /** Directory that holds every run's files. */
  const DataDirPath: string := "C:\\Cryomagnetic_Probe_Station\\Data\\"

  /** Sample frequency of the analog card, in samples per second. */
  const MasterSampleFreq: real := 100.0
}
