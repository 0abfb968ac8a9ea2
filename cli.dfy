/**
 * The command line of s3cp: the positional-argument gate, the choice of transfer
 * direction from the classification of both arguments, the requests handed to the
 * storage SDK, and the exit status.
 *
 * The flag globals the program fills in through `flag.BoolVar`/`flag.StringVar`
 * are an immutable `Options` record here. The SDK and the file system are opaque:
 * `SdkOutcome` says which stage of a transfer, if any, failed.
 */
module Cli {
  import opened Wrappers
  import opened S3Path

  /** The parsed flags. */
  datatype Options = Options(
    help: bool,
    debug: bool,
    quiet: bool,
    region: string,
    reducedRedundancy: bool)

  /** The region used when `--region` is absent. */
  const DefaultRegion: string := "us-east-1"

  /** What `flag.Parse` leaves in the globals when no flag is given. */
  const DefaultOptions: Options := Options(false, false, false, DefaultRegion, false)

  /** The storage class an upload gets under `--rr`. */
  const ReducedRedundancy: string := "REDUCED_REDUNDANCY"

  /**
   * A transfer the program asks the SDK for. A download request (`GetObjectInput`)
   * has no storage-class field at all.
   */
  datatype Action =
    | Download(bucket: string, key: string, localPath: string)
    | Upload(localPath: string, bucket: string, key: string, storageClass: Option<string>)

  /** The error values `copyFromS3` and `copyToS3` return. */
  datatype CopyError =
    | InvalidSourcePath(path: string)
    | InvalidDestinationPath(path: string)
    | CannotOpen(file: string, reason: string)
    | NoDownloader
    | NoUploader
    | TransferFailed(reason: string)

  /** What the file system and the SDK do with a request: the first stage that fails, if any. */
  datatype SdkOutcome =
    | Succeeds
    | OpenFails(reason: string)
    | ClientUnavailable
    | TransferFails(reason: string)

  /** Which copy routine `main` calls. */
  datatype Direction = FromS3 | ToS3 | Neither

  /** How a run ends. */
  datatype Run =
    | ShowHelp                                          // help printed, exit 1
    | Report(attempted: Option<Action>, error: CopyError)  // error printed, exit 1
    | Complete(done: Action)                            // "transfer complete", exit 0

  /** The status passed to `os.Exit`. */
  function ExitCode(r: Run): (code: int)
    ensures code == 0 || code == 1
    ensures code == 0 <==> r.Complete?
  {
    if r.Complete? then 0 else 1
  }

  /** The transfer a run handed to the SDK, if it reached that far. */
  function Attempted(r: Run): Option<Action> {
    match r
    case ShowHelp => None
    case Report(a, _) => a
    case Complete(a) => Some(a)
  }

  /**
   * The gate in `parseCmdline`: exactly two positional arguments and no `--help`,
   * otherwise help and exit 1.
   */
  function ParseCmdline(opts: Options, args: seq<string>): (r: Option<(string, string)>)
    ensures r.Some? <==> |args| == 2 && !opts.help
    ensures r.Some? ==> [r.value.0, r.value.1] == args
  {
    if |args| != 2 || opts.help then None else Some((args[0], args[1]))
  }

  /** The if/else-if chain in `main`: the source is tested first. */
  function Route(source: string, destination: string): (d: Direction)
    ensures d == FromS3 <==> MatchesPattern(source)
    ensures d == ToS3 <==> !MatchesPattern(source) && MatchesPattern(destination)
    ensures d == Neither <==> !MatchesPattern(source) && !MatchesPattern(destination)
  {
    if IsS3Path(source) then FromS3
    else if IsS3Path(destination) then ToS3
    else Neither
  }

  /**
   * The request `copyFromS3` builds: split the source, reject an empty bucket or key,
   * download into the destination taken as a local file name. The source must match
   * the pattern: otherwise the submatch slice is nil and indexing it panics.
   */
  function DownloadRequest(source: string, destination: string): (r: Result<Action, CopyError>)
    requires IsS3Path(source)
    ensures r.Ok? && r.value.Download?
    ensures Compose(r.value.bucket, r.value.key) == source
    ensures ValidBucket(r.value.bucket) && ValidKey(r.value.key)
    ensures r.value.localPath == destination
  {
    var (bucket, key) := ParseS3(source).value;
    if |bucket| == 0 || |key| == 0 then Err(InvalidSourcePath(source))
    else Ok(Download(bucket, key, destination))
  }

  /**
   * The request `copyToS3` builds: split the destination, reject an empty bucket or
   * key, upload the source file, with the reduced-redundancy class under `--rr`.
   */
  function UploadRequest(source: string, destination: string, reducedRedundancy: bool): (r: Result<Action, CopyError>)
    requires IsS3Path(destination)
    ensures r.Ok? && r.value.Upload?
    ensures Compose(r.value.bucket, r.value.key) == destination
    ensures ValidBucket(r.value.bucket) && ValidKey(r.value.key)
    ensures r.value.localPath == source
    ensures r.value.storageClass.Some? <==> reducedRedundancy
    ensures r.value.storageClass.Some? ==> r.value.storageClass.value == ReducedRedundancy
  {
    var (bucket, key) := ParseS3(destination).value;
    if |bucket| == 0 || |key| == 0 then Err(InvalidDestinationPath(destination))
    else
      var storageClass := if reducedRedundancy then Some(ReducedRedundancy) else None;
      Ok(Upload(source, bucket, key, storageClass))
  }

  /**
   * The I/O half of `copyFromS3`/`copyToS3`: open the local file (created for a
   * download, read for an upload), make the SDK client, run the transfer.
   */
  function Transfer(a: Action, sdk: SdkOutcome): (r: Option<CopyError>)
    ensures r.None? <==> sdk.Succeeds?
    ensures sdk.OpenFails? ==> r == Some(CannotOpen(a.localPath, sdk.reason))
    ensures sdk.ClientUnavailable? ==> r == Some(if a.Download? then NoDownloader else NoUploader)
    ensures sdk.TransferFails? ==> r == Some(TransferFailed(sdk.reason))
  {
    match sdk
    case Succeeds => None
    case OpenFails(reason) => Some(CannotOpen(a.localPath, reason))
    case ClientUnavailable => Some(if a.Download? then NoDownloader else NoUploader)
    case TransferFails(reason) => Some(TransferFailed(reason))
  }

  /** A copy routine: build the request, then run it; any error ends the run with exit 1. */
  function Copy(request: Result<Action, CopyError>, sdk: SdkOutcome): (r: Run)
    ensures request.Err? ==> r == Report(None, request.error)
    ensures request.Ok? ==> Attempted(r) == Some(request.value)
    ensures request.Ok? ==> (r.Complete? <==> sdk.Succeeds?)
  {
    match request
    case Err(e) => Report(None, e)
    case Ok(a) =>
      match Transfer(a, sdk)
      case None => Complete(a)
      case Some(e) => Report(Some(a), e)
  }

  /** `main`: the gate, the direction, the copy. */
  function Main(opts: Options, args: seq<string>, sdk: SdkOutcome): (r: Run)
    ensures r.ShowHelp? <==>
      |args| != 2 || opts.help || (!MatchesPattern(args[0]) && !MatchesPattern(args[1]))
    ensures r.Complete? <==> !r.ShowHelp? && sdk.Succeeds?
  {
    match ParseCmdline(opts, args)
    case None => ShowHelp
    case Some((source, destination)) =>
      match Route(source, destination)
      case FromS3 => Copy(DownloadRequest(source, destination), sdk)
      case ToS3 => Copy(UploadRequest(source, destination, opts.reducedRedundancy), sdk)
      case Neither => ShowHelp
  }

  /** With a positional count other than two, or `--help`, the run shows help, exits 1 and transfers nothing. */
  lemma GateShowsHelp(opts: Options, args: seq<string>, sdk: SdkOutcome)
    requires |args| != 2 || opts.help
    ensures Main(opts, args, sdk) == ShowHelp
    ensures ExitCode(Main(opts, args, sdk)) == 1
  {
  }

  /**
   * A remote source always means a download of its bucket and key into the
   * destination string, whatever the destination is.
   */
  lemma SourcePrecedence(opts: Options, source: string, destination: string, sdk: SdkOutcome, bucket: string, key: string)
    requires !opts.help
    requires ValidBucket(bucket) && ValidKey(key) && source == Compose(bucket, key)
    ensures Attempted(Main(opts, [source, destination], sdk)) == Some(Download(bucket, key, destination))
  {
    ParseS3Compose(bucket, key);
  }

  /** Two remote paths are not rejected: the destination is used as a local file name. */
  lemma BothRemoteDownloads(opts: Options, source: string, destination: string, sdk: SdkOutcome)
    requires !opts.help
    requires MatchesPattern(source) && MatchesPattern(destination)
    ensures Attempted(Main(opts, [source, destination], sdk)).Some?
    ensures Attempted(Main(opts, [source, destination], sdk)).value.Download?
    ensures Attempted(Main(opts, [source, destination], sdk)).value.localPath == destination
  {
  }

  /** A local source and a remote destination mean an upload of the source file to that bucket and key. */
  lemma UploadBranch(opts: Options, source: string, destination: string, sdk: SdkOutcome, bucket: string, key: string)
    requires !opts.help
    requires !MatchesPattern(source)
    requires ValidBucket(bucket) && ValidKey(key) && destination == Compose(bucket, key)
    ensures Attempted(Main(opts, [source, destination], sdk)).Some?
    ensures var a := Attempted(Main(opts, [source, destination], sdk)).value;
      a.Upload? && a.localPath == source && a.bucket == bucket && a.key == key &&
      (a.storageClass == if opts.reducedRedundancy then Some(ReducedRedundancy) else None)
  {
    ParseS3Compose(bucket, key);
  }

  /** Two local paths: help, exit 1, nothing transferred. */
  lemma NeitherShowsHelp(opts: Options, source: string, destination: string, sdk: SdkOutcome)
    requires !MatchesPattern(source) && !MatchesPattern(destination)
    ensures Main(opts, [source, destination], sdk) == ShowHelp
    ensures ExitCode(Main(opts, [source, destination], sdk)) == 1
  {
  }

  /** The path-invalid errors of the copy routines can never be returned. */
  lemma NoInvalidPathError(opts: Options, args: seq<string>, sdk: SdkOutcome)
    ensures var r := Main(opts, args, sdk);
      r.Report? ==> !r.error.InvalidSourcePath? && !r.error.InvalidDestinationPath?
    ensures var r := Main(opts, args, sdk);
      r.Report? ==> r.attempted.Some?
  {
  }

  /**
   * An upload carries the reduced-redundancy class exactly when `--rr` is set; a
   * download is the same request with or without `--rr`.
   */
  lemma StorageClassFollowsRr(opts: Options, args: seq<string>, sdk: SdkOutcome)
    ensures var a := Attempted(Main(opts, args, sdk));
      a.Some? && a.value.Upload? ==>
        (a.value.storageClass.Some? <==> opts.reducedRedundancy) &&
        (a.value.storageClass.Some? ==> a.value.storageClass.value == ReducedRedundancy)
    ensures var a := Attempted(Main(opts, args, sdk));
      a.Some? && a.value.Download? ==>
        Main(opts.(reducedRedundancy := !opts.reducedRedundancy), args, sdk) == Main(opts, args, sdk)
  {
  }

  /** The run exits 0 exactly when the gate passes, one side is remote and the SDK succeeds. */
  lemma ExitCodeZeroIff(opts: Options, source: string, destination: string, sdk: SdkOutcome)
    ensures ExitCode(Main(opts, [source, destination], sdk)) == 0 <==>
      !opts.help && (MatchesPattern(source) || MatchesPattern(destination)) && sdk.Succeeds?
  {
  }

  /** `--quiet`, `--debug` and `--region` change output and SDK configuration only, never the decision. */
  lemma OutputFlagsDoNotRoute(opts: Options, args: seq<string>, sdk: SdkOutcome, quiet: bool, debug: bool, region: string)
    ensures Main(opts.(quiet := quiet, debug := debug, region := region), args, sdk) == Main(opts, args, sdk)
  {
  }

  /**
   * An I/O failure names the argument the program was handling: a file that cannot be
   * opened is the destination of a download or the source of an upload, and a missing
   * client is the downloader or the uploader accordingly.
   */
  lemma IoErrorsNameArguments(opts: Options, source: string, destination: string, reason: string)
    requires !opts.help
    ensures IsS3Path(source) ==>
      Main(opts, [source, destination], OpenFails(reason)) == Report(Some(DownloadRequest(source, destination).value), CannotOpen(destination, reason))
    ensures IsS3Path(source) ==>
      Main(opts, [source, destination], ClientUnavailable).error == NoDownloader
    ensures !IsS3Path(source) && IsS3Path(destination) ==>
      Main(opts, [source, destination], OpenFails(reason)) == Report(Some(UploadRequest(source, destination, opts.reducedRedundancy).value), CannotOpen(source, reason))
    ensures !IsS3Path(source) && IsS3Path(destination) ==>
      Main(opts, [source, destination], ClientUnavailable).error == NoUploader
    ensures (IsS3Path(source) || IsS3Path(destination)) ==>
      Main(opts, [source, destination], TransferFails(reason)).error == TransferFailed(reason)
  {
  }

  /**
   * The doc-comment examples `s3:/mybucket/...` have no second ':' and so are local
   * paths: the documented download and upload examples both show help instead.
   */
  lemma DocCommentExamplesAreLocal(sdk: SdkOutcome)
    ensures !IsS3Path("s3:/mybucket/myfolder/backup.tar.gz")
    ensures !IsS3Path("s3:/mybucket/myfolder")
    ensures Main(DefaultOptions, ["s3:/mybucket/myfolder/backup.tar.gz", "/tmp"], sdk) == ShowHelp
    ensures Main(DefaultOptions, ["/tmp/backup.tar.gz", "s3:/mybucket/myfolder"], sdk) == ShowHelp
  {
    NoSeparatorIsLocal("s3:/mybucket/myfolder/backup.tar.gz");
    NoSeparatorIsLocal("s3:/mybucket/myfolder");
    NoSeparatorIsLocal("/tmp");
    NoSeparatorIsLocal("/tmp/backup.tar.gz");
  }

  /** The help text's form `s3:bucket:/path`: a download of key `/a/b.txt` from `mybucket`. */
  lemma HelpFormDownloads(sdk: SdkOutcome)
    ensures Attempted(Main(DefaultOptions, ["s3:mybucket:/a/b.txt", "/tmp/b.txt"], sdk))
      == Some(Download("mybucket", "/a/b.txt", "/tmp/b.txt"))
  {
    assert Compose("mybucket", "/a/b.txt") == "s3:mybucket:/a/b.txt";
    SourcePrecedence(DefaultOptions, "s3:mybucket:/a/b.txt", "/tmp/b.txt", sdk, "mybucket", "/a/b.txt");
  }

  /** An upload under `--rr` to `s3:mybucket:/a/` asks for the reduced-redundancy class. */
  lemma RrUploadExample(sdk: SdkOutcome)
    ensures Attempted(Main(DefaultOptions.(reducedRedundancy := true), ["/tmp/b.txt", "s3:mybucket:/a/"], sdk))
      == Some(Upload("/tmp/b.txt", "mybucket", "/a/", Some(ReducedRedundancy)))
  {
    assert Compose("mybucket", "/a/") == "s3:mybucket:/a/";
    NoSeparatorIsLocal("/tmp/b.txt");
    UploadBranch(DefaultOptions.(reducedRedundancy := true), "/tmp/b.txt", "s3:mybucket:/a/", sdk, "mybucket", "/a/");
  }
}
