/** The command-line front end DownloadManagerCLI (cli.py:7-109): how the
    config command merges its flags into the configuration, and how the
    download command maps the downloader's result to an exit code. */
module Cli {
  import opened Common
  import opened Planner
  import opened Probe
  import opened Fetcher
  import opened Reassembly
  import opened Orchestration
  import opened Downloader

  /** The parsed arguments of the config command; an absent option is None. */
  datatype ConfigArgs = ConfigArgs(
    show: bool,
    fragments: Option<int>,
    chunkSize: Option<int>,
    timeout: Option<int>,
    retryAttempts: Option<int>,
    outputDir: Option<string>,
    tempDir: Option<string>,
    noSslVerify: bool,
    sslVerify: bool,
    noProgress: bool,
    showProgress: bool,
    progressStyle: Option<string>,
    save: bool)

  /** Python truthiness of an optional integer: given and nonzero. */
  predicate GivenInt(x: Option<int>) {
    x.Some? && x.value != 0
  }

  /** Python truthiness of an optional string: given and non-empty. */
  predicate GivenString(x: Option<string>) {
    x.Some? && x.value != ""
  }

  /** The progress styles the config command accepts (cli.py:96). */
  predicate ValidStyle(style: string) {
    style == "inline" || style == "full_screen" || style == "simple"
  }

  /** The numeric overrides (cli.py:75-82). */
  function NumberOverrides(c: DownloadConfig, args: ConfigArgs): DownloadConfig {
    var c1 := if GivenInt(args.fragments) then c.(maxConcurrentFragments := args.fragments.value) else c;
    var c2 := if GivenInt(args.chunkSize) then c1.(chunkSize := args.chunkSize.value) else c1;
    var c3 := if GivenInt(args.timeout) then c2.(timeout := args.timeout.value) else c2;
    if GivenInt(args.retryAttempts) then c3.(retryAttempts := args.retryAttempts.value) else c3
  }

  /** The directory overrides (cli.py:83-86). */
  function DirectoryOverrides(c: DownloadConfig, args: ConfigArgs): DownloadConfig {
    var c1 := if GivenString(args.outputDir) then c.(outputDirectory := args.outputDir.value) else c;
    if GivenString(args.tempDir) then c1.(tempDirectory := args.tempDir.value) else c1
  }

  /** The certificate switches (cli.py:87-90). */
  function SslSwitches(c: DownloadConfig, args: ConfigArgs): DownloadConfig {
    var c1 := if args.noSslVerify then c.(verifySsl := false) else c;
    if args.sslVerify then c1.(verifySsl := true) else c1
  }

  /** The progress switches (cli.py:91-94). */
  function ProgressSwitches(c: DownloadConfig, args: ConfigArgs): DownloadConfig {
    var c1 := if args.noProgress then c.(showProgress := false) else c;
    if args.showProgress then c1.(showProgress := true) else c1
  }

  /** Each numeric setting is replaced only by a given, nonzero value. */
  lemma NumberOverridesFacts(c: DownloadConfig, args: ConfigArgs)
    ensures var r := NumberOverrides(c, args);
      && r.maxConcurrentFragments == (if GivenInt(args.fragments) then args.fragments.value else c.maxConcurrentFragments)
      && r.chunkSize == (if GivenInt(args.chunkSize) then args.chunkSize.value else c.chunkSize)
      && r.timeout == (if GivenInt(args.timeout) then args.timeout.value else c.timeout)
      && r.retryAttempts == (if GivenInt(args.retryAttempts) then args.retryAttempts.value else c.retryAttempts)
      && r.(maxConcurrentFragments := c.maxConcurrentFragments, chunkSize := c.chunkSize,
            timeout := c.timeout, retryAttempts := c.retryAttempts) == c
  {
  }

  /** Each directory is replaced only by a given, non-empty value. */
  lemma DirectoryOverridesFacts(c: DownloadConfig, args: ConfigArgs)
    ensures var r := DirectoryOverrides(c, args);
      && r.outputDirectory == (if GivenString(args.outputDir) then args.outputDir.value else c.outputDirectory)
      && r.tempDirectory == (if GivenString(args.tempDir) then args.tempDir.value else c.tempDirectory)
      && r.(outputDirectory := c.outputDirectory, tempDirectory := c.tempDirectory) == c
  {
  }

  /** Of two opposite switches the enabling one, tested last, wins. */
  lemma SwitchesFacts(c: DownloadConfig, args: ConfigArgs)
    ensures var r := SslSwitches(c, args);
      r.verifySsl == (args.sslVerify || (!args.noSslVerify && c.verifySsl)) && r.(verifySsl := c.verifySsl) == c
    ensures var r := ProgressSwitches(c, args);
      r.showProgress == (args.showProgress || (!args.noProgress && c.showProgress)) && r.(showProgress := c.showProgress) == c
  {
  }

  /** The field overrides of cli.py:75-94, applied in source order; the
      style is left to the check that follows them. */
  function ApplyOverrides(c: DownloadConfig, args: ConfigArgs): DownloadConfig {
    ProgressSwitches(SslSwitches(DirectoryOverrides(NumberOverrides(c, args), args), args), args)
  }

  /** A value replaces a setting only when it is truthy, of two opposite
      flags the later one (ssl_verify, show_progress) wins, and the style is
      not touched. */
  lemma OverridePrecedence(c: DownloadConfig, args: ConfigArgs)
    ensures var r := ApplyOverrides(c, args);
      && r.maxConcurrentFragments == (if GivenInt(args.fragments) then args.fragments.value else c.maxConcurrentFragments)
      && r.chunkSize == (if GivenInt(args.chunkSize) then args.chunkSize.value else c.chunkSize)
      && r.timeout == (if GivenInt(args.timeout) then args.timeout.value else c.timeout)
      && r.retryAttempts == (if GivenInt(args.retryAttempts) then args.retryAttempts.value else c.retryAttempts)
      && r.outputDirectory == (if GivenString(args.outputDir) then args.outputDir.value else c.outputDirectory)
      && r.tempDirectory == (if GivenString(args.tempDir) then args.tempDir.value else c.tempDirectory)
      && r.verifySsl == (args.sslVerify || (!args.noSslVerify && c.verifySsl))
      && r.showProgress == (args.showProgress || (!args.noProgress && c.showProgress))
      && r.progressStyle == c.progressStyle
  {
    var numbers := NumberOverrides(c, args);
    var directories := DirectoryOverrides(numbers, args);
    var switched := SslSwitches(directories, args);
    NumberOverridesFacts(c, args);
    DirectoryOverridesFacts(numbers, args);
    SwitchesFacts(directories, args);
    SwitchesFacts(switched, args);
  }

  /** What one config command does: its exit code, the configuration it
      leaves, whether it rebuilds the downloader and whether it saves. */
  datatype ConfigEffect = ConfigEffect(code: int, config: DownloadConfig, rebuild: bool, save: bool)

  /** config_command (cli.py:68-109). */
  function ConfigOutcome(c: DownloadConfig, args: ConfigArgs): (e: ConfigEffect)
    ensures args.show ==> e == ConfigEffect(0, c, false, false)
    ensures e.code == 0 || e.code == 1
    ensures e.code == 1 <==> !args.show && GivenString(args.progressStyle) && !ValidStyle(args.progressStyle.value)
    ensures e.code == 1 ==> e.config == ApplyOverrides(c, args) && !e.rebuild && !e.save
    ensures !args.show && e.code == 0 ==> e.rebuild && (e.save <==> args.save)
    ensures !args.show ==> e.config.(progressStyle := c.progressStyle) == ApplyOverrides(c, args)
    ensures !args.show && e.code == 0 ==>
      e.config.progressStyle == if GivenString(args.progressStyle) then args.progressStyle.value else c.progressStyle
    ensures e.config.progressStyle != c.progressStyle ==>
      ValidStyle(e.config.progressStyle) && args.progressStyle == Some(e.config.progressStyle)
    ensures ValidStyle(c.progressStyle) ==> ValidStyle(e.config.progressStyle)
  {
    if args.show then ConfigEffect(0, c, false, false)
    else
      var o := ApplyOverrides(c, args);
      OverridePrecedence(c, args);
      if GivenString(args.progressStyle) then
        if ValidStyle(args.progressStyle.value) then ConfigEffect(0, o.(progressStyle := args.progressStyle.value), true, args.save)
        else ConfigEffect(1, o, false, false)
      else ConfigEffect(0, o, true, args.save)
  }

  /** Arguments that are all absent, zero or empty leave the configuration
      as it was. */
  lemma NoOverridesKeepConfig(c: DownloadConfig, args: ConfigArgs)
    requires !GivenInt(args.fragments) && !GivenInt(args.chunkSize) && !GivenInt(args.timeout)
    requires !GivenInt(args.retryAttempts) && !GivenString(args.outputDir) && !GivenString(args.tempDir)
    requires !args.noSslVerify && !args.sslVerify && !args.noProgress && !args.showProgress
    ensures ApplyOverrides(c, args) == c
  {
    OverridePrecedence(c, args);
  }

  /** Given both, ssl_verify beats no_ssl_verify and show_progress beats
      no_progress. */
  lemma EnablingFlagsWin(c: DownloadConfig, args: ConfigArgs)
    requires args.noSslVerify && args.sslVerify && args.noProgress && args.showProgress
    ensures ApplyOverrides(c, args).verifySsl && ApplyOverrides(c, args).showProgress
  {
    OverridePrecedence(c, args);
  }

  /** The numeric assignments of config_command (cli.py:75-82). */
  method OverrideNumbers(config: DownloadConfig, args: ConfigArgs) returns (c: DownloadConfig)
    ensures c == NumberOverrides(config, args)
  {
    c := config;
    if GivenInt(args.fragments) {
      c := c.(maxConcurrentFragments := args.fragments.value);
    }
    if GivenInt(args.chunkSize) {
      c := c.(chunkSize := args.chunkSize.value);
    }
    if GivenInt(args.timeout) {
      c := c.(timeout := args.timeout.value);
    }
    if GivenInt(args.retryAttempts) {
      c := c.(retryAttempts := args.retryAttempts.value);
    }
  }

  /** The directory assignments of config_command (cli.py:83-86). */
  method OverrideDirectories(config: DownloadConfig, args: ConfigArgs) returns (c: DownloadConfig)
    ensures c == DirectoryOverrides(config, args)
  {
    c := config;
    if GivenString(args.outputDir) {
      c := c.(outputDirectory := args.outputDir.value);
    }
    if GivenString(args.tempDir) {
      c := c.(tempDirectory := args.tempDir.value);
    }
  }

  /** The switch assignments of config_command (cli.py:87-94). */
  method OverrideSwitches(config: DownloadConfig, args: ConfigArgs) returns (c: DownloadConfig)
    ensures c == ProgressSwitches(SslSwitches(config, args), args)
  {
    c := config;
    if args.noSslVerify {
      c := c.(verifySsl := false);
    }
    if args.sslVerify {
      c := c.(verifySsl := true);
    }
    if args.noProgress {
      c := c.(showProgress := false);
    }
    if args.showProgress {
      c := c.(showProgress := true);
    }
  }

  /** The exit status of the download command, or the error that escapes it. */
  datatype CommandResult = Exit(code: int) | Uncaught(error: DownloadError)

  /** download_command's mapping (cli.py:65-66): 0 iff the download returned
      True, 1 if it returned False; an exception propagates. */
  function ExitFor(o: DownloadOutcome): (r: CommandResult)
    ensures r == Exit(0) <==> o == Completed(true)
    ensures r == Exit(1) <==> o == Completed(false)
    ensures r.Uncaught? <==> o.Raised?
  {
    match o
    case Completed(success) => Exit(if success then 0 else 1)
    case Raised(e) => Uncaught(e)
  }

  class DownloadManagerCLI {
    var config: DownloadConfig
    var downloader: FragmentDownloader
    /** The configuration last written by save_config, if any. */
    var saved: Option<DownloadConfig>

    /** The front end and its downloader share one configuration object:
        every change the front end makes is seen by the downloader. */
    ghost predicate Valid()
      reads this, downloader, downloader.progressTracker
    {
      downloader.config == config && downloader.Valid()
    }

    /** __init__ (cli.py:8-11) with the configuration load_config produced. */
    constructor (loaded: DownloadConfig)
      ensures Valid() && config == loaded && saved == None
      ensures fresh(downloader) && downloader.sslVerifies == loaded.verifySsl && downloader.progressTracker == null
    {
      config := loaded;
      downloader := new FragmentDownloader(loaded);
      saved := None;
    }

    /** config_command (cli.py:68-109): the overrides are written into the
        shared configuration one by one; an invalid style stops with 1 and
        keeps them; otherwise the downloader is rebuilt and the
        configuration is saved when asked. */
    method ConfigCommand(args: ConfigArgs) returns (code: int)
      requires Valid()
      modifies this, downloader
      ensures Valid()
      ensures var e := ConfigOutcome(old(config), args);
        && code == e.code && config == e.config
        && saved == (if e.save then Some(e.config) else old(saved))
        && (e.rebuild ==> fresh(downloader) && downloader.sslVerifies == config.verifySsl && downloader.progressTracker == null)
        && (!e.rebuild ==> downloader == old(downloader) && downloader.sslVerifies == old(downloader.sslVerifies)
                           && downloader.progressTracker == old(downloader.progressTracker))
    {
      if args.show {
        return 0;
      }
      var c := OverrideNumbers(config, args);
      c := OverrideDirectories(c, args);
      c := OverrideSwitches(c, args);
      config, downloader.config := c, c;
      if GivenString(args.progressStyle) {
        if ValidStyle(args.progressStyle.value) {
          config := config.(progressStyle := args.progressStyle.value);
          downloader.config := config;
        } else {
          return 1;
        }
      }
      downloader := new FragmentDownloader(config);
      if args.save {
        saved := Some(config);
      }
      return 0;
    }

    /** download_command (cli.py:58-66) for a resolved file name, with the
        server's behaviour and the clock given as in DownloadFile. */
    method DownloadCommand(noProgress: bool, filename: string, head: HeadOutcome, fallback: GetOutcome,
                           scripts: seq<seq<Attempt>>, supportsAnsi: bool, now: real, fs: FileSystem)
      returns (result: CommandResult, fs': FileSystem)
      requires Valid()
      modifies this, downloader, downloader.progressTracker
      ensures Valid() && saved == old(saved)
      ensures config == if noProgress then old(config).(showProgress := false) else old(config)
      ensures var o := DownloadSpec(config, filename, head, fallback, scripts, fs);
        result == ExitFor(o.0) && fs' == o.1
      ensures noProgress ==> fresh(downloader)
      ensures !noProgress ==> downloader == old(downloader)
    {
      if noProgress {
        config := config.(showProgress := false);
        downloader.config := config;
        downloader := new FragmentDownloader(config);
      }
      var outcome, delays;
      outcome, fs', delays := downloader.DownloadFile(filename, head, fallback, scripts, supportsAnsi, now, fs);
      result := ExitFor(outcome);
    }
  }

  /** When the server answers the probe with the file's length and every
      fragment's script delivers its slice, the download command exits with
      0 and the output file holds exactly the file. */
  lemma DownloadCommandSucceeds(cfg: DownloadConfig, filename: string, head: HeadOutcome, fallback: GetOutcome,
                                scripts: seq<seq<Attempt>>, fs: FileSystem, data: seq<Byte>)
    requires ProbeSize(head) == Some(|data|) && 1 <= |data| < FormatLimit
    requires cfg.maxConcurrentFragments >= 1 && cfg.chunkSize != 0
    requires var plan := Plan(|data|, cfg.maxConcurrentFragments, cfg.tempDirectory, filename).value;
      forall j :: 0 <= j < |plan| ==> Delivers(ScriptFor(scripts, j), cfg.retryAttempts, Slice(data, plan[j]))
    ensures var o := DownloadSpec(cfg, filename, head, fallback, scripts, fs);
      ExitFor(o.0) == Exit(0) && Path(cfg.outputDirectory, filename) in o.1
      && o.1[Path(cfg.outputDirectory, filename)] == data
  {
    DownloadRoundTrip(cfg, filename, head, fallback, scripts, fs, data);
  }
}
