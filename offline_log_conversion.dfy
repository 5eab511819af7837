/** `OfflineLogConversionService`: the vendor log formats SCAT converts,
    the format chosen from a file name, and the SCAT command line. */
module OfflineLogConversion {
  import opened Wrappers
  import opened Text
  import QmdlConversion

  /** `LogFormat`: Qualcomm, Samsung and HiSilicon logs. */
  datatype LogFormat = QMDL | SDM | LPD

  /** The `-t` value SCAT expects for the format. */
  function ScatType(format: LogFormat): string {
    match format
    case QMDL => "qc"
    case SDM => "sec"
    case LPD => "hisi"
  }

  /** The inverse of `ScatType`. */
  function FormatOfScatType(t: string): (r: Option<LogFormat>)
    ensures r.Some? ==> ScatType(r.value) == t
  {
    if t == "qc" then Some(QMDL)
    else if t == "sec" then Some(SDM)
    else if t == "hisi" then Some(LPD)
    else None
  }

  /** Each format has its own SCAT type, so the type names the format. */
  lemma ScatTypeInjective(f: LogFormat, g: LogFormat)
    ensures ScatType(f) == ScatType(g) <==> f == g
    ensures FormatOfScatType(ScatType(f)) == Some(f)
  {
  }

  // ------------------------------------------------------------ detectFormat

  /** `detectFormat` on the file name: QMDL for ".qmdl" and ".qmdl2", SDM
      for ".sdm", LPD for ".lpd", compared in lower case; any other name is
      an `IllegalArgumentException` quoting the lower-cased name. */
  function DetectFormat(fileName: string): (r: Result<LogFormat, string>)
    ensures r.Err? ==> r.error == "Unknown log format: " + Lower(fileName)
  {
    var filename := Lower(fileName);
    if EndsWith(filename, ".qmdl") || EndsWith(filename, ".qmdl2") then Ok(QMDL)
    else if EndsWith(filename, ".sdm") then Ok(SDM)
    else if EndsWith(filename, ".lpd") then Ok(LPD)
    else Err("Unknown log format: " + filename)
  }

  /** The suffixes end in different characters ('l', '2', 'm', 'd'), so at
      most one of them ends a name and the order of the tests does not
      matter: each format is chosen exactly when its own suffix is there. */
  lemma DetectFormatIff(fileName: string)
    ensures var l := Lower(fileName);
            && (DetectFormat(fileName) == Ok(QMDL) <==> EndsWith(l, ".qmdl") || EndsWith(l, ".qmdl2"))
            && (DetectFormat(fileName) == Ok(SDM) <==> EndsWith(l, ".sdm"))
            && (DetectFormat(fileName) == Ok(LPD) <==> EndsWith(l, ".lpd"))
            && (DetectFormat(fileName).Err? <==>
                  !EndsWith(l, ".qmdl") && !EndsWith(l, ".qmdl2") && !EndsWith(l, ".sdm") && !EndsWith(l, ".lpd"))
  {
    var l := Lower(fileName);
    if EndsWith(l, ".sdm") {
      QmdlConversion.LastCharOfSuffix(l, ".sdm");
      if EndsWith(l, ".qmdl") { QmdlConversion.LastCharOfSuffix(l, ".qmdl"); assert false; }
      if EndsWith(l, ".qmdl2") { QmdlConversion.LastCharOfSuffix(l, ".qmdl2"); assert false; }
    }
    if EndsWith(l, ".lpd") {
      QmdlConversion.LastCharOfSuffix(l, ".lpd");
      if EndsWith(l, ".qmdl") { QmdlConversion.LastCharOfSuffix(l, ".qmdl"); assert false; }
      if EndsWith(l, ".qmdl2") { QmdlConversion.LastCharOfSuffix(l, ".qmdl2"); assert false; }
      if EndsWith(l, ".sdm") { QmdlConversion.LastCharOfSuffix(l, ".sdm"); assert false; }
    }
  }

  /** Qualcomm and Samsung logs are also what the QMDL service treats as
      needing conversion; HiSilicon logs are not. */
  lemma FormatsAndQmdlFiles(dir: Option<string>, fileName: string)
    ensures DetectFormat(fileName) == Ok(QMDL) ==> QmdlConversion.IsQmdlFile(QmdlConversion.FilePath(dir, fileName))
    ensures DetectFormat(fileName) == Ok(SDM) ==> QmdlConversion.IsQmdlFile(QmdlConversion.FilePath(dir, fileName))
    ensures DetectFormat(fileName) == Ok(LPD) ==> !QmdlConversion.IsQmdlFile(QmdlConversion.FilePath(dir, fileName))
  {
    DetectFormatIff(fileName);
    var l := Lower(fileName);
    if EndsWith(l, ".lpd") {
      QmdlConversion.LastCharOfSuffix(l, ".lpd");
      if EndsWith(l, ".dlf") { QmdlConversion.LastCharOfSuffix(l, ".dlf"); assert false; }
    }
  }

  // ----------------------------------------------------------- convertToPcap

  /** The argument list `convertToPcap` hands to the Python interpreter. */
  method ScatArguments(inputLog: string, outputPcap: string, format: LogFormat) returns (args: seq<string>)
    ensures args == ["-m", "scat", "-t", ScatType(format), "-d", inputLog, "-F", outputPcap]
  {
    args := [];
    args := args + ["-m"];
    args := args + ["scat"];
    args := args + ["-t"];
    args := args + [ScatType(format)];
    args := args + ["-d"];
    args := args + [inputLog];
    args := args + ["-F"];
    args := args + [outputPcap];
  }

  /** How SCAT reads such a command line back: the format, the input log
      and the output capture. */
  function ReadScatArguments(args: seq<string>): (r: Option<(LogFormat, string, string)>)
    ensures r.Some? ==> |args| == 8 && args[3] == ScatType(r.value.0)
  {
    if |args| == 8 && args[0] == "-m" && args[1] == "scat" && args[2] == "-t"
       && args[4] == "-d" && args[6] == "-F" && FormatOfScatType(args[3]).Some?
    then Some((FormatOfScatType(args[3]).value, args[5], args[7]))
    else None
  }

  /** The command line carries the format, the input and the output
      unchanged, whatever the paths are (even ones that look like options). */
  lemma ScatArgumentsRoundTrip(inputLog: string, outputPcap: string, format: LogFormat)
    ensures ReadScatArguments(["-m", "scat", "-t", ScatType(format), "-d", inputLog, "-F", outputPcap])
            == Some((format, inputLog, outputPcap))
  {
    ScatTypeInjective(format, format);
  }
}
