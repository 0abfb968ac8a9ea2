# s3cp path router, in Dafny

s3cp copies one file between the local file system and an S3 bucket, with an
scp-like command line: `s3cp [--help] [--quiet] [--debug] [--region r] [--rr] source destination`.
An argument names a remote object when it matches the anchored pattern
`^s3:([^:]+):(.+)$`; the first group is the bucket, the second the key.
All transfer work is done by the AWS SDK. The program's own logic is small:

- the argument gate: exactly two positional arguments and no `--help`;
- the path classifier and splitter (the pattern above);
- the choice of direction: a remote source means download, else a remote destination means upload, else help;
- the requests built for the SDK, including the `REDUCED_REDUNDANCY` storage class under `--rr`;
- the exit status.

This project models that logic and proves its properties.

- `wrappers.dfy` holds `Option` and `Result`.
- `s3path.dfy` (module `S3Path`) holds the pattern.
  - `MatchesPattern` is the pattern's language, written as a reference definition with Go's character classes. `[^:]` admits `'\n'`, because Go's default Perl flags include ClassNL. `.` does not admit `'\n'`. `^` and `$` anchor the whole text.
  - `ParseS3` is a scanner written without regular expressions. It is proved to accept exactly that language and to return the only possible split.
- `cli.dfy` (module `Cli`) holds the rest.
  - The flag globals become an immutable `Options` record.
  - `ParseCmdline` is the gate. `Route` is the if/else-if chain in `main`.
  - `DownloadRequest` and `UploadRequest` build the requests made by `copyFromS3` and `copyToS3`.
  - `Transfer` and `Copy` cover the I/O half of those routines.
  - `Main` and `ExitCode` give the result of a whole run.
  - The file system and the SDK are an opaque `SdkOutcome` parameter. It names the first stage that failed (open, client creation, transfer), if any.

Where the program's help text (s3cp.go:83) and doc comment (s3cp.go:44-51) disagree with its code, the model follows the code:

- Two remote arguments are not rejected. The source is tested first, so the run downloads, and the destination string (for example `s3:b:k`) is used as a local file name. The help text says one side must be local. `Cli.BothRemoteDownloads` states what the code does.
- The doc-comment examples `s3:/mybucket/...` do not match the pattern, so they count as local paths and those command lines show help. `Cli.DocCommentExamplesAreLocal` states this.

The "path is invalid" checks in `copyFromS3` and `copyToS3` (s3cp.go:107-109 and 143-145) can never fire, because a match always has a non-empty bucket and key. `Cli.DownloadRequest` and `Cli.UploadRequest` prove that they always return `Ok`.

## Model

| member | source | states |
|---|---|---|
| `S3Path.FirstColonFrom` | s3cp.go:73 | returns the index of the first `':'` at or after a position, or `None` when there is none; this is where `[^:]+` must stop |
| `S3Path.ParseS3` | s3cp.go:102-105 | any submatch it returns is a colon-free non-empty bucket and a newline-free non-empty key, and `"s3:" + bucket + ":" + key` spells the input again |
| `S3Path.ParseS3Compose` | s3cp.go:73 | every admissible bucket and key are recovered exactly from the path they spell |
| `S3Path.MatchesPattern` | s3cp.go:73 | the language of `^s3:([^:]+):(.+)$` under Go's default flags; every string in it starts with `s3:` and has at least five characters |
| `S3Path.ParseS3AcceptsPattern` | s3cp.go:73 | the scanner accepts a string exactly when it is in the language of `^s3:([^:]+):(.+)$` |
| `S3Path.IsS3Path` | s3cp.go:209-210 | the classifier `regexp.MatchString(s3pathre, ·)` is true exactly on the pattern's language |
| `S3Path.ParseS3Iff` | s3cp.go:103-105 | `ParseS3(s) == Some((b, k))` holds exactly when `b` and `k` are admissible and spell `s`, so the split is unique |
| `S3Path.ParseS3SplitsAtFirstColon` | s3cp.go:73 | the colon that ends the bucket is the first `':'` after `s3:`; everything after it, further colons included, is the key |
| `S3Path.NewlineInKeyIsLocal` | s3cp.go:73 | a `'\n'` in the key text makes the argument local, because Go's `.` does not match a newline |
| `S3Path.NewlineInBucketIsKept` | s3cp.go:73 | a `'\n'` in the bucket text is kept, because `[^:]` matches a newline under Go's default flags |
| `S3Path.NoSeparatorIsLocal` | s3cp.go:73 | a string with no `':'` after the prefix is local |
| `S3Path.SplitOfColonFreePrefix` | s3cp.go:73 | two spellings with colon-free buckets have the same bucket and the same key |
| `Cli.ExitCode` | s3cp.go:194-231 | the status is 0 or 1, and it is 0 exactly for a completed transfer |
| `Cli.ParseCmdline` | s3cp.go:194-200 | lets the run go on exactly when there are two positional arguments and no `--help`, and then returns them in order |
| `Cli.Route` | s3cp.go:209-223 | chooses download exactly when the source matches, upload exactly when only the destination matches, and neither when no side matches |
| `Cli.DownloadRequest` | s3cp.go:102-109 | for a matching source, never returns the invalid-path error; it downloads the source's bucket and key, whose composition is the source, into the destination string |
| `Cli.UploadRequest` | s3cp.go:138-145 | for a matching destination, never returns the invalid-path error; it uploads the source file to the destination's bucket and key, and the storage class is set, to `REDUCED_REDUNDANCY`, exactly when `--rr` is given |
| `Cli.Transfer` | s3cp.go:111-171 | an SDK outcome gives no error exactly when it is success; each failing stage maps to its error: the open failure to the request's local file, the missing client to the downloader or uploader, the transfer failure to the SDK's reason |
| `Cli.IoErrorsNameArguments` | s3cp.go:111-171 | in a whole run, a file that cannot be opened is the destination of a download or the source of an upload; a missing client is the downloader or the uploader accordingly; a transfer failure carries the SDK's reason |
| `Cli.Copy` | s3cp.go:216-230 | a request error ends the run before any transfer; otherwise the request is the attempted transfer, and the run completes exactly when the SDK succeeds |
| `Cli.Main` | s3cp.go:203-231 | the run shows help exactly when the gate fails or neither argument matches, and completes exactly when it does not show help and the SDK succeeds |
| `Cli.GateShowsHelp` | s3cp.go:194-198 | a positional count other than two, or `--help`, gives help, exit 1 and no transfer |
| `Cli.SourcePrecedence` | s3cp.go:214-216 | a remote source always means a download of its bucket and key into the destination string |
| `Cli.BothRemoteDownloads` | s3cp.go:214-216 | two remote arguments download into a local file named by the destination string |
| `Cli.UploadBranch` | s3cp.go:217-219 | a local source and a remote destination mean an upload of the source to the destination's bucket and key, with the `--rr` storage class |
| `Cli.NeitherShowsHelp` | s3cp.go:220-223 | two local arguments give help, exit 1 and no transfer |
| `Cli.NoInvalidPathError` | s3cp.go:107-109 | no run reports an invalid-path error, and every reported error belongs to an attempted transfer |
| `Cli.StorageClassFollowsRr` | s3cp.go:157-165 | an upload has the reduced-redundancy class exactly when `--rr` is set; a download is the same with or without `--rr` |
| `Cli.ExitCodeZeroIff` | s3cp.go:194-231 | with two arguments, the exit status is 0 exactly when `--help` is absent, one side matches, and the SDK succeeds |
| `Cli.OutputFlagsDoNotRoute` | s3cp.go:182-187 | for a fixed SDK outcome, `--quiet`, `--debug` and `--region` never change the routing, the request or the status |
| `Cli.DocCommentExamplesAreLocal` | s3cp.go:44-51 | the doc comment's `s3:/mybucket/...` examples are local paths, so those command lines show help |
| `Cli.HelpFormDownloads` | s3cp.go:81 | `s3cp s3:mybucket:/a/b.txt /tmp/b.txt` downloads key `/a/b.txt` from bucket `mybucket` into `/tmp/b.txt` |
| `Cli.RrUploadExample` | s3cp.go:163-165 | `s3cp --rr /tmp/b.txt s3:mybucket:/a/` uploads with the `REDUCED_REDUNDANCY` class |

## Left out

- The SDK calls `s3manager.NewDownloader`, `NewUploader`, `Download` and `Upload` are outside the model. They are foreign code, and their multipart, retry and credential behaviour is not visible. Their result is the opaque `SdkOutcome`.
- `os.Create`, `os.Open` and `Close` are file-system I/O, so their result is folded into `SdkOutcome` too. The model does not capture that `os.Create` truncates the destination before a download that later fails. It also does not capture that the file is not closed when client creation fails.
- The `flag` package's parsing of `os.Args` is not modelled. `Options` and the positional list are inputs.
- `printHelp`, `printc`, `debug` and message formatting are output only, so they are left out. The exact wording of error strings is left out too; each error kind is a `CopyError` constructor.
- Setting `aws.DefaultConfig.Region` (s3cp.go:206) is global SDK configuration, so it is left out. The region is kept in `Options` only. Its effect on the transfer, such as a wrong region turning a success into exit 1, is folded into `SdkOutcome`.
- `os.Exit` becomes a returned `Run` and `ExitCode`.
- Strings are sequences of Unicode characters, not UTF-8 bytes. Go's matcher decodes runes, and `':'` and `'\n'` are single bytes that never occur inside a multi-byte sequence, so the classification is the same. Only byte lengths differ, and those matter only for the empty-bucket and empty-key checks, which hold either way.
