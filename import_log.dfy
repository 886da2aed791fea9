/** The import-log settings bean: whether imported features are logged, the
    log mode and the log file. Fields the Java code keeps as nullable
    references are `Option`s here. */
module ImportLogConfig {
  import opened Wrappers

  /** Log modes. Only UNIQUE, the default, is consulted by this bean; every
      other mode of the enumeration is `OtherMode`. */
  datatype ImportLogMode = Unique | OtherMode(name: string)

  class ImportLog {
    var logImportedFeatures: Option<bool>
    var logMode: Option<ImportLogMode>
    var logFile: Option<string>

    constructor ()
      ensures logImportedFeatures == Some(false)
      ensures logMode.None? && logFile.None?
      ensures !IsSetLogImportedFeatures() && GetLogMode() == Unique && !IsSetLogFile()
    {
      logImportedFeatures := Some(false);
      logMode := None;
      logFile := None;
    }

    /** A null flag reads as false; otherwise the stored flag is returned. */
    function IsSetLogImportedFeatures(): (r: bool)
      reads this
      ensures r <==> logImportedFeatures == Some(true)
    {
      logImportedFeatures.GetOr(false)
    }

    method SetLogImportedFeatures(value: Option<bool>)
      modifies this`logImportedFeatures
      ensures logImportedFeatures == value
      ensures IsSetLogImportedFeatures() <==> value == Some(true)
    {
      logImportedFeatures := value;
    }

    /** The stored mode, or UNIQUE whenever no mode is stored. */
    function GetLogMode(): (mode: ImportLogMode)
      reads this
      ensures logMode.None? ==> mode == Unique
      ensures logMode.Some? ==> mode == logMode.value
    {
      logMode.GetOr(Unique)
    }

    /** Stores the mode as given, null included. */
    method SetLogMode(mode: Option<ImportLogMode>)
      modifies this`logMode
      ensures logMode == mode
      ensures GetLogMode() == if mode.Some? then mode.value else Unique
    {
      logMode := mode;
    }

    /** A log file is set when it is present and not the empty string. */
    function IsSetLogFile(): (r: bool)
      reads this
      ensures r <==> logFile.Some? && |logFile.value| > 0
    {
      logFile.Some? && logFile.value != ""
    }

    /** Null and the empty string are ignored, so a log file once set can
        only be replaced by another non-empty one, never cleared. */
    method SetLogFile(file: Option<string>)
      modifies this`logFile
      ensures file.Some? && file.value != "" ==> logFile == file
      ensures file.None? || file.value == "" ==> logFile == old(logFile)
      ensures old(IsSetLogFile()) ==> IsSetLogFile()
    {
      if file.Some? && file.value != "" {
        logFile := file;
      }
    }
  }
}
