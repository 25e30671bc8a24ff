# bigoci verification

A Dafny model of the parts of bigoci that are hard to get right: the concurrent push and pull engine, the
authentication state that all requests to one repository share, two hand-written scanners, the redirect
chain, and the arithmetic and retry rules under them. Everything is proved over all inputs, all
interleavings of the workers or requests, and all answers a registry, a source or a disk can give.

`dafny verify dfyconfig.toml` checks the project.

## How it is built

* **Code that changes things step by step is written as code.** Classes such as `Progress.Reporter`,
  `ClaimLedger.ClaimSet`, `AuthState.AuthCell`, `Challenge.Scanner`, `PartFetch.PartFetcher`,
  `SourceReads.TagSourceReads` and `SinkFile.Sink` have the fields the Go types have. Each method is proved
  against a function of the old state, and the theorems are about those functions.
* **Concurrency is a step machine.** `PushProtocol`, `PullSession` with `PullProtocol`, and `AuthProtocol` list
  the steps one goroutine can take: one locked ledger or reporter call, one port call, one chunk copied.
  They use the same functions the classes are proved against. `PushWork`, `PushUpload` and `PartFetch` show
  step by step that the code of the hash pass, of a push worker and of a pull worker, with all it reports, is a
  goroutine of its machine. A run is any sequence of enabled steps, and each `...Safety` module proves what
  every step keeps, one small lemma for each kind of step.
* **The machines never get stuck.** From every state a run can reach, a push or a pull can still end well
  exactly when nobody has failed (`CanStillSucceed`, `CanStillCommit`), and every request can still end
  (`EveryRequestCanEnd`). `EveryFileMakesTheTrip` puts a push and a pull of every file together.
* **The environment is adversarial.** Bodies, ports, disks, clocks, contexts and random draws are data or
  functions a theorem quantifies over. A stream is a list of deliveries of any size that can end or break
  anywhere (`Streams`).
* **SHA-256 is an unknown total function.** Nothing assumes that it has no collisions. Where two contents
  are shown equal, the statement says "equal, or here are two different strings with one digest".
* **Behaviour is also stated from outside.** `PartPlay`, `UploadPlay`, `AuthAnswers`, `ChallengeAnswer`,
  `RedirectChain`, `RetryRuns`, `ManifestRecords` and `PullCounts` say what comes of the answers, headers and
  records alone, in their own terms and not in those of the functions the code is proved against.
* **int64 is a newtype** wherever the source computes sizes or durations, so every intermediate result is
  proved to stay in range.

| module | what it models |
|---|---|
| `SplitPlan`, `PartSizes` | the split rule, tiling, part sizes |
| `Manifest`, `ManifestRecords`, `Decimal` | the artifact, its wire record, and the records field by field |
| `JsonCount` | the layer counter against the JSON grammar |
| `Progress` | the reporter and its snapshots |
| `ClaimLedger`, `PushLedger`, `PushProtocol`, `PushSafety`, `PushResults` | a push: ledger, steps, invariants, results |
| `PushWork`, `PushUpload`, `UploadPlay`, `PushRuns`, `SourceReads`, `Streams` | the hash pass, one part's upload and how any answers let it end, and the reader that re-checks the source |
| `PullSession`, `PullSafety`, `PullProtocol`, `PullReport`, `PullCounts` | a pull: workers, invariants, disk and crashes, progress |
| `PushSucceeds`, `PullSucceeds` | from every reachable state, whether a run can still succeed |
| `PartFetch`, `PartPlay`, `PullRuns`, `SinkFile`, `BlobRange` | one part's fetch and how any answers let it end, the destination file, where a blob read starts |
| `RoundTrip` | push, then pull |
| `AuthState`, `AuthAnswers`, `AuthProtocol`, `AuthSafety`, `AuthResults`, `AuthStampede`, `AuthProgress` | the authentication state and its requests |
| `Challenge`, `ChallengeGrammar`, `ChallengeAnswer` | the WWW-Authenticate reader against RFC 9110, and what a written list is answered with |
| `Redirect`, `RedirectChain`, `Retry`, `RetryRuns` | the redirect chain and the retry loop, and each told by its answers |

## Hypotheses

* Sink and source errors are never tagged as transient: `PartPlay.Transient` and `UploadPlay.Transient` say
  so. A disk or source failure always ends the part.
* A source that breaks leaves its range short (`SourceReads.BreaksShort`). The contract of `io.ReaderAt`
  allows a full read to come with an error. Only `SourceReads.ChangedSourceIsNeverSent` needs it, and
  `SourceReads.MismatchIsSentExactly` says what happens without it.
* An exchange never yields a header that was issued before (`AuthProtocol.Config.newTokens`). Minted bearer
  tokens meet it. A Basic header does not, and neither does a registry token presented as it is
  (`internal/oci/token.go:74-75`). The lemmas say what each case comes to.
* The source does not change during a push (`PushProtocol.Config.steady`), where the source's own bytes are
  compared. Without it, the statements are about the bytes the hash pass read.
* A lifetime a token endpoint states fits in int64 nanoseconds. `AuthState.LifetimeIsExact` says when it does,
  and `AuthAnswers.WrappedLifetimeIsNeverPresented` what a wrapped one leads to.

## What turned out false

* A waiter does not always get the outcome of the exchange it waited on. The requester that minted the token
  can replay with it, be refused, and deny the scope before the waiter takes the lock. `WaiterGets` says
  exactly when, and `WaiterOvertaken` builds such a run.
* A denied scope can still see a request sent. `OnlyStragglersAreSent` says exactly when: one that waited on an
  exchange earlier than the denied one and not itself denied, or whose own exchange has just ended with a
  token. `DeniedYetSent` builds such a run.
* A challenge with a token68 is not always isolated. With a slash in it the whole header is unreadable, and
  without padding it is read as one more scheme, so "Basic realm=x, Negotiate bearer" loses its Basic
  challenge to a Bearer one without a realm (`NegotiateTakesThePick`). `ScanReadsWhatWasWritten` says what
  every list is read as, and `Isolation` gives the exact condition under which the picked challenge stays.
* A source that changed under the push can be uploaded under the old digest: a read that completes the part
  and also fails is handed on before the digest is compared. `MismatchIsSentExactly` says from which sources,
  and `BrokenFullReadEscapes` is one.
* The guarded doubling of a wait can overflow. From a base below zero and below the cap it doubles downward,
  out of int64, and comes back positive. `RoomlessCeiling` says exactly when, and `RoomlessPolicyWaits` is one
  such policy. `Do` never runs one, because it fills in defaults first.

## Model

| member | source | states |
|---|---|---|
| SplitPlan.CountParts | internal/plan/plan.go:142-149 | the least positive number of parts that covers the file, with no int64 overflow |
| SplitPlan.Plan.PartAt | internal/plan/plan.go:127-135 | part i starts at i times the part size and ends there plus the part size or at the end of the file, with no overflow |
| SplitPlan.NewAccepts | internal/plan/plan.go:65-84 | a split is accepted exactly when both sizes are valid and at most 4096 parts of that size cover the file |
| SplitPlan.SmallestPartSizeIsLeast | internal/plan/plan.go:154-161 | for a file that is not empty, a part size is accepted exactly when it is at least the suggested one |
| SplitPlan.WhyRefused | internal/plan/plan.go:65-84 | a split is refused as negative, as not positive, or as too many parts, naming the least number that would do and the least part size that would be accepted |
| SplitPlan.PlanIsUnique | internal/plan/plan.go:65-84 | the promises of a plan determine it, so New finds the only valid one |
| SplitPlan.PartHolding | internal/plan/plan.go:127-135 | every byte of the file is in exactly one part |
| SplitPlan.PartsTileTheFile | internal/plan/plan.go:114-122 | the parts in order, joined, are the file: no gap and no overlap |
| SplitPlan.SameSlicesSameFile | internal/transfer/pull.go:225-253 | files of the planned size that agree on every part are the same |
| PartSizes.TotalIsFileSize | internal/plan/plan.go:127-135 | the part sizes add up to the file size |
| Decimal.RoundTrip | internal/manifest/decode.go:326-338 | the decimal text of any int64 parses back to it |
| Decimal.ParseReadsSpellings | internal/manifest/decode.go:326-338 | a number is read off an optional sign, leading zeros and its digits, and off nothing else |
| Manifest.Validate | internal/manifest/manifest.go:203-256 | an artifact passes exactly when it meets the format contract: title, digests, split, part count and sizes |
| Manifest.Encode | internal/manifest/manifest.go:120-153 | filling the layer slice and the annotation map gives exactly the wire record of the artifact, or its validation error |
| Manifest.ReadLayers | internal/manifest/decode.go:273-283 | the loop returns the parts in order, or the first layer of another media type |
| Manifest.DecodeInvertsEncode | internal/manifest/decode.go:43-72 | an artifact can be encoded exactly when it is well formed, and its wire record decodes back to it |
| Manifest.WhatIsReadCanBeWritten | internal/manifest/decode.go:343-392 | whatever decodes is well formed, so reading accepts no artifact that writing would refuse |
| Manifest.EncodingIsInjective | internal/manifest/manifest.go:160-171 | two artifacts with one wire record are the same artifact |
| ManifestRecords.ReadExactlyWhatDescribes | internal/manifest/decode.go:43-72 | a record is read as an artifact exactly when, field by field, it describes it, and is refused as no bigoci artifact exactly when its types are others |
| ManifestRecords.WhyRefused | internal/manifest/decode.go:43-72 | the schema and the config are refused in that order exactly when they differ, and a missing annotation, an unreadable count or a foreign layer is what it is said to be |
| ManifestRecords.WhatIsWritten | internal/manifest/manifest.go:120-153 | a written record describes its artifact, with the types in their own case, four annotations at most and no title when there is none |
| ManifestRecords.FormatIs | internal/manifest/manifest.go:203-256 | the checks accept exactly one to 4096 parts, all of the part size but the last, which is what is left of the file |
| ManifestRecords.DigestsAre | internal/manifest/manifest.go:217-228 | a digest is "sha256:" and 64 lower-case hexadecimal digits |
| JsonCount.ValuePasses | internal/manifest/decode.go:160-197 | a well-formed value of any nesting, white space, strings and escapes leaves the counter where it was, and its depth never falls below that of its surroundings |
| JsonCount.SlotsPass | internal/manifest/decode.go:160-197 | only commas at depth 1 count, one for each element after the first |
| JsonCount.AdvanceString | internal/manifest/decode.go:200-209 | one character of a string: a backslash covers the next character, and a quote it does not cover ends the string |
| JsonCount.SkipSpace | internal/manifest/decode.go:212-224 | stops at the first byte that is not JSON white space |
| JsonCount.SpacesAre | internal/manifest/decode.go:212-224 | white space is the space, tab, line feed and carriage return of section 2 of RFC 8259 |
| JsonCount.CountArrayElements | internal/manifest/decode.go:160-197 | for every well-formed array, wherever it starts, the loop stays in bounds, ends, and returns the number of its elements, or 4097 for more than 4096 |
| JsonCount.RefusesLayers | internal/manifest/decode.go:144-156 | refuses exactly the arrays of more than 4096 elements |
| Progress.Reporter.Begin | internal/transfer/progress.go:141-152 | the reporter's fields and delivered snapshots after begin |
| Progress.Reporter.Measured | internal/transfer/progress.go:160-175 | the totals become known and the phase advances, unless the transfer has ended |
| Progress.Reporter.Complete | internal/transfer/progress.go:209-229 | a part is counted once, by index, and delivered |
| Progress.Reporter.CompleteTwins | internal/transfer/progress.go:240-257 | twins are counted together, at one size |
| Progress.Reporter.Wire | internal/transfer/progress.go:260-274 | movement is counted and coalesced |
| Progress.Reporter.Hashed | internal/transfer/progress.go:277-291 | hashing is counted and coalesced |
| Progress.Reporter.Finish | internal/transfer/progress.go:324-343 | the terminal snapshot, once |
| Progress.CallKept | internal/transfer/progress.go:141-371 | every recording keeps the account: snapshots ordered, undelivered bytes equal to pending and below the step, nothing after the end |
| Progress.EveryOrderKept | internal/transfer/progress.go:141-371 | so does every order of calls a transfer can make, stragglers after finish included |
| Progress.OneTerminalSnapshot | internal/transfer/progress.go:324-343 | exactly one terminal snapshot is delivered, it is the last, and it says whether the transfer failed |
| Progress.CountsAddUp | internal/transfer/progress.go:260-312 | until the end, wire bytes, hashed bytes and retries are the sums of what was recorded |
| Progress.WhatACallRecords | internal/transfer/progress.go:141-371 | what each call changes in the snapshot, and that it is delivered at once, or for movement once four mebibytes went by since the last snapshot; what does not count changes nothing |
| ClaimLedger.ClaimSet.Take | internal/transfer/push.go:522-540 | the claims and the answer after take: the first taker uploads, later ones skip, and are counted while the upload is open |
| ClaimLedger.ClaimSet.Settle | internal/transfer/push.go:548-556 | settle closes the claim and returns the owner's part and every part that waited |
| PushLedger.MoveKept | internal/transfer/push.go:269-333 | every move of every worker keeps the ledger: each part in one place, one owner for each digest, waiting counts equal to the parts owed, credits backed by settled claims |
| PushLedger.OwnersStep | internal/transfer/push.go:303-333 | a digest's claim is open only while its one owner uploads it or has failed |
| PushLedger.OwedStep | internal/transfer/push.go:512-556 | the count a claim holds is the number of parts whose workers skipped it in flight |
| PushLedger.CreditStep | internal/transfer/push.go:303-333 | a credited part's digest is settled, and the part counts as skipped exactly when its own bytes were not put |
| PushSafety.StepKept | internal/transfer/push.go:113-175 | every step of the hash pass, the workers, the reporter, the registry and the finish keeps the push invariant |
| PushSafety.RunKept | internal/transfer/push.go:113-175 | every interleaving keeps it |
| PushResults.OneOwner | internal/transfer/push.go:303-333 | in every interleaving at most one worker has a digest's upload in hand |
| PushResults.SomebodyAnswers | internal/transfer/push.go:291-333 | a part not yet credited is queued or some worker that has not left answers for it, although skipping workers go on before the blob exists |
| PushResults.AllCredited | internal/transfer/push.go:303-333 | when every worker has drained the queue, all parts are credited and all their digests are in the registry |
| PushResults.ManifestLast | internal/transfer/push.go:149-175 | whenever the manifest is put, nobody has failed, each part digest is the hash of what was read at its range, and the registry holds every part and the empty config |
| PushResults.NoManifestAfterFailure | internal/transfer/push.go:157-175 | after a worker or the hash pass has failed, no continuation writes a manifest |
| PushResults.SnapshotsWithinTotals | internal/transfer/progress.go:209-291 | every snapshot of a push counts no more parts or hashed bytes than the file has |
| PushResults.SuccessCountsAddUp | internal/transfer/push.go:303-333 | a push that succeeds has credited every part once, its parts less the skipped ones are the digests Put was called for, and its last phase is finalizing and then done |
| PushResults.BytesConserved | internal/transfer/progress.go:209-257 | completed bytes are the sizes of the credited parts, never above the file size, and all of it on success; or two parts of different sizes are an explicit collision of the hash |
| SourceReads.TagSourceReads.Read | internal/transfer/push.go:435-463 | one Read of the tagging reader: what it hands on, hashes, tags and withholds |
| SourceReads.AllSentIsWhatWasHashed | internal/transfer/push.go:435-463 | one transport: if it took every declared byte, they hash to the digest, or its last read also broke and delivered all it was asked for |
| SourceReads.SentIsPrefix | internal/transfer/push.go:435-463 | a transport only ever takes the source's bytes, in order |
| SourceReads.MismatchIsSentExactly | internal/transfer/push.go:435-463 | for every source, some transport completes an upload of bytes that do not hash to the digest exactly when the source breaks in a read that still carries bytes and completes the declared size with such bytes |
| SourceReads.ChangedSourceIsNeverSent | internal/transfer/push.go:435-463 | from a source that is short whenever it breaks, every completed upload sent bytes that hash to the digest |
| SourceReads.BrokenFullReadEscapes | internal/transfer/push.go:443-445 | one source that does: its range comes whole with an error, no longer hashes to the digest, and is taken whole |
| SourceReads.UnchangedIsNeverRefused | internal/transfer/push.go:435-463 | a range that still holds what was hashed is never refused, however it is cut into reads |
| SourceReads.WhatStopsATransport | internal/transfer/push.go:435-463 | a transport that is stopped is stopped by a changed source when the range ends short or hashes to something else, by a broken one when it breaks short, and only by the end of an unchanged one otherwise |
| PushWork.HashPass.HashSection | internal/transfer/push.go:228-240 | hashing a part reads and reports exactly what was delivered, and delivers its size or tells a short source from a failing one; it succeeds exactly when the source delivers the part whole |
| PushWork.HashPass.HashParts | internal/transfer/push.go:206-247 | the pass fills parts in file order with the digests of what it read, queues each once, and returns the digest of it all; whatever it does is a sequence of the machine's hash-pass steps; it succeeds exactly when every part is delivered whole with the context open, and otherwise stops at the first that is not, blaming the context exactly when it has ended |
| PushWork.Repo.Put | internal/transfer/ports.go:86-106 | one reader is consumed; a blob is stored exactly when the bytes sent have the size and the digest and the registry does not refuse, and the failure says who ended it |
| PushUpload.Uploader.Attempt | internal/transfer/push.go:364-396 | the failure, whether it put anything, and the registry after it are what UploadPlay.Try makes of the answers; success means the registry holds the digest, and a blob already held is not put; the worker of the machine goes with it |
| PushUpload.Uploader.Attempted | internal/transfer/progress.go:412-434 | it succeeds exactly when UploadPlay.Plays says so, and otherwise fails as it says; the puts, the blobs held and the retries recorded are those of the play; at most the policy's attempts, and uploaded exactly when a put was made |
| PushUpload.Uploader.Upload | internal/transfer/push.go:303-333 | whatever the code does is a sequence of steps of one worker of the push machine, ending with the part credited, owed to its owner, or the worker failed; an owner's part is placed exactly when UploadPlay.Plays says so, with the puts, blobs and retries of the play; exactly what happens to the claims |
| UploadPlay.HealthyIsPlaced | internal/transfer/push.go:303-396 | if one of the attempts within the policy would be answered and stored and those before it fail at most in ways worth repeating, the part ends up in the registry |
| UploadPlay.LostAnswerIsFound | internal/transfer/push.go:315-333 | a part whose bytes landed and whose answer was lost is found by the next attempt and not sent again |
| UploadPlay.HopelessEndsIt | internal/transfer/push.go:364-396 | an upload ends for good after one attempt exactly when asking or putting fails in a way not worth repeating, the source fails, or the bytes sent have another digest |
| UploadPlay.PlaysInPolicy | internal/retry/retry.go:43-83 | attempts stay within the policy and before the context ends; the context is blamed only when it has ended, a transient failure is final only when the attempts are used up, and a held blob is never put |
| PushRuns.LedIsReachable | internal/transfer/push.go:303-333 | so the claims, registry, digests and report the code leaves are those of a state some interleaving of the push reaches |
| PushUpload.UploadBegins | internal/transfer/push.go:291-333 | an upload may begin in every reachable state in which a worker holds a part |
| PullSafety.WriteElsewhere | internal/transfer/pull.go:526-574 | a write in one part's range leaves every other part's range as it was |
| PullSafety.AlignedStep | internal/transfer/pull.go:452-574 | whatever any worker does, each worker's hasher has absorbed exactly what its part's range holds so far |
| PullSafety.VerifiedNeverWritten | internal/transfer/pull.go:258-272 | a range that has been verified is never written again |
| PullSafety.MoveKept | internal/transfer/pull.go:225-272 | every move of every worker keeps places, alignment and verification |
| PullSafety.AllReturnedVerified | internal/transfer/pull.go:225-253 | when every worker has returned without an error, every part of the file hashes to its digest |
| PullProtocol.CommitOnlyWhatVerifies | internal/transfer/pull.go:111-152 | from any leftover partial and any port answers, a pull that reaches its commit has a file of the declared size whose every part verifies |
| PullProtocol.DestinationNeverTorn | internal/file/sink.go:215-235 | through any number of pulls, kills and crashes with unsynced writes lost, the destination is its previous content or a file whose every part verifies |
| PullProtocol.RunKept | internal/transfer/pull.go:111-152 | every step, crash included, keeps the invariant behind both, so a later pull of what survived is as safe as the first |
| PullProtocol.LeftoverIsTakenUp | internal/transfer/pull.go:130-141 | what a pull finds is hashed exactly when it is as long as the file and not empty; the pull then starts from those bytes as they are, and otherwise from them cut or extended with zeros |
| PullReport.EventKept | internal/transfer/pull.go:329-396 | the reporter credits exactly the verified parts, and a part is hashed out of the file at most once |
| PullReport.SnapshotsWithinTotals | internal/transfer/pull.go:92-152 | from the first snapshot on, retries of the manifest fetch included, every snapshot of a pull has no totals yet or the manifest's, and counts no more parts, bytes or hashed bytes than its own totals; all of them when every worker has returned |
| PullReport.UnresolvedSnapshots | internal/transfer/pull.go:92-178 | a pull that ends without a manifest delivers one snapshot first, one for each retry and a failed one last, counting nothing but retries |
| PullCounts.WhatAnEventCounts | internal/transfer/pull.go:329-359 | each event counts exactly what it does: parts found in place as skipped, parts fetched not, bytes written as moved, bytes read back as hashed, retries and phases |
| PullCounts.FreshPullSkipsNothing | internal/transfer/pull.go:193-195 | in every interleaving a pull that takes nothing up skips no part and hashes nothing back |
| PartFetch.PartialFile.WriteAt | internal/file/sink.go:167-169 | a positional write changes the bytes it took, at its place, and nothing else |
| PartFetch.PartFetcher.Verify | internal/transfer/pull.go:378-396 | reports whether the range on disk hashes to the digest; only reading can fail |
| PartFetch.PartFetcher.Stream | internal/transfer/pull.go:526-574 | writes only its own range; after a transient failure the hasher, the range and the count agree to the byte; the outcome is decided by what the body delivers and how it ends |
| PartFetch.PartFetcher.CheckOver | internal/transfer/pull.go:565-573 | one more byte is too long, a clean end is success, a broken one is a failure |
| PartFetch.PartFetcher.Attempt | internal/transfer/pull.go:452-493 | asks from where the part stands; on a disk that takes every write, the failure, the count and the hasher after it are what the answer makes of the bytes held; reports an unusable offset exactly when the port started elsewhere |
| PartFetch.PartFetcher.Fetch | internal/transfer/pull.go:329-359 | whatever the code does and reports is a sequence of events of one worker of the watched pull, ending with the part verified and credited or the worker failed; a part found on disk makes no request and no write, and only a disk that cannot be read stops it there; any other fetch, after a resume or not, ends and asks as PartPlay.Plays says, and counts each attempt but the first; nothing outside the range changes |
| PartFetch.PartFetcher.FetchAttempts | internal/transfer/pull.go:345-352 | on a disk that takes every write, the part is fetched exactly when PartPlay.Plays says so, with the same requests and the same failure otherwise; the first request asks for the whole part and none asks past its end; over the real adapter no offset is unusable |
| PartPlay.HonestPortIsFetched | internal/transfer/pull.go:329-359 | if one of the answers within the policy brings the part and those before it bring pieces of it or failures worth repeating, the part is fetched, wherever the others broke |
| PartPlay.BrokenIsContinued | internal/transfer/pull.go:452-493 | after a transient break the next request starts where the bytes that arrived end, and what it completes is checked as one part |
| PartPlay.HopelessEndsIt | internal/transfer/pull.go:452-574 | a fetch ends for good after one request exactly when the failure is not worth repeating, the stream starts elsewhere, it is too long, or the whole part has another digest |
| PartPlay.PlaysInPolicy | internal/retry/retry.go:43-83 | requests start inside the part, stay within the policy and before the context ends; the context is blamed only when it has ended, and a transient failure is final only when the attempts are used up |
| PullRuns.LedOnlyPart | internal/transfer/pull.go:526-574 | a worker that keeps to its part changes no byte outside the part's range |
| PullRuns.LedIsKept | internal/transfer/pull.go:329-359 | so what the code leaves is a state of some run of the watched pull, with all such a run keeps |
| SinkFile.WrittenAt | internal/file/sink.go:167-169 | the written bytes stand at their offset and the length grows only as needed |
| SinkFile.WrittenInside | internal/file/sink.go:167-169 | a write inside the file is the write a pull worker makes |
| SinkFile.Sink.Truncate | internal/file/sink.go:194-196 | cuts or extends with zeros, keeping what fits |
| SinkFile.Sink.Commit | internal/file/sink.go:215-235 | success exactly when the handle is open and no system call fails; otherwise the disk after the steps before the first that fails; the destination is as it was or equal to the flushed partial |
| SinkFile.Sink.Close | internal/file/sink.go:244-251 | idempotent, no error after a commit, and otherwise the exact error |
| SinkFile.Sink.Discard | internal/file/sink.go:257-261 | removes the partial and never touches the destination |
| SinkFile.CommitIsItsSteps | internal/file/sink.go:215-235 | however far a commit gets, it is that many of the steps between which the crash theorem allows a crash, and then the end of the pull |
| BlobRange.BlobReadStart | internal/oci/blobs.go:212-237 | a read starts at 0 exactly for a 200 and at the asked offset exactly for a 206 that states it; it is not found exactly for a 404, and a 206 without a usable range is refused as that |
| BlobRange.StatedRangeIsRead | internal/oci/blobs.go:248-281 | a 206 is accepted exactly when its Content-Range starts where it was asked to, whatever its end and size |
| BlobRange.StatedStart | internal/oci/blobs.go:264-281 | a Content-Range states a start exactly when it is a byte range whose text up to the first dash is that number |
| BlobRange.RangeIsRecovered | internal/oci/blobs.go:185-187 | the offset can be read back from the Range header, and nothing follows its dash |
| RoundTrip.WrittenDescribesRead | internal/transfer/push.go:164-175 | what a push wrote decodes back to its artifact, which has the title asked for and the digest of what was read, and describes those bytes |
| RoundTrip.CommittedIsSource | internal/transfer/pull.go:111-152 | what a pull of a pushed manifest commits is the source byte for byte, for every file, part size, worker count, title, leftover and interleaving |
| RoundTrip.DestinationIsSource | internal/transfer/pull.go:111-152 | after any number of such pulls, kills and crashes the destination is its previous content or the source |
| PushSucceeds.SomeRunSucceeds | internal/transfer/push.go:113-175 | for every file, part size, worker count, title and registry there is a run of the push that succeeds |
| PushSucceeds.CanStillSucceed | internal/transfer/push.go:113-175 | no deadlock: from every reachable state of every interleaving, some continuation succeeds exactly when nobody has failed and the push is not given up |
| PullSucceeds.SomeRunCommits | internal/transfer/pull.go:111-152 | for every file a manifest describes and every leftover there is a run of the pull that commits a described file |
| PullSucceeds.CanStillCommit | internal/transfer/pull.go:111-152 | no deadlock: from every state pulls, kills and crashes lead to, a running pull of a manifest that describes some file can still commit by itself exactly when no worker has failed |
| RoundTrip.EveryFileMakesTheTrip | internal/transfer/pull.go:111-152 | so every file can be pushed and pulled back, and what arrives is the source |
| AuthState.AuthCell.AuthorizeLocked | internal/oci/authstate.go:172-206 | the locked section of authorize: the new state and the decision |
| AuthState.AuthCell.AnsweredLocked | internal/oci/authstate.go:223-238 | the loop proves exactly the held tokens the request carried |
| AuthState.AuthCell.RefusedLocked | internal/oci/authstate.go:254-292 | the locked section of refused: the new state and the decision |
| AuthState.AuthCell.DenyLocked | internal/oci/authstate.go:303-326 | the locked section of deny |
| AuthState.AuthCell.FinishLocked | internal/oci/authstate.go:458-479 | what an exchange's outcome does to its entry and the map |
| AuthState.AuthCell.LearnLocked | internal/oci/authstate.go:374-395 | what the version check's answer does |
| AuthState.AuthCell.WaitLocked | internal/oci/authstate.go:424-439 | what a waiter reads once the channel has closed |
| AuthState.AuthCell.CloseReady | internal/oci/authstate.go:412 | the end of an exchange opens its entry's channel and changes nothing else |
| AuthState.MarginFor | internal/oci/authstate.go:516-522 | half of a short lifetime and thirty seconds of a long one |
| AuthAnswers.WhatIsPresented | internal/oci/authstate.go:172-206 | every answer of authorize; a held token is presented exactly when it states no end, has more than thirty seconds left, or has more than half of its lifetime left |
| AuthAnswers.TokenIsGivenUp | internal/oci/authstate.go:488-522 | from the seconds the endpoint states: half of 60 or less are used and all but thirty of more, with 60 when none are stated |
| AuthAnswers.BasicNeverEnds | internal/oci/authstate.go:504-512 | a credential without a stated end is presented whatever the clock says |
| AuthAnswers.FailedExchangeIsWorth | internal/oci/authstate.go:458-479 | a refused credential fails every later request for the scope, and any other failed exchange is forgotten |
| AuthAnswers.AnswerProves | internal/oci/authstate.go:223-238 | an answer proves the held, unproven tokens that carry the header of the request, and nothing else |
| AuthAnswers.TokenRefused | internal/oci/authstate.go:254-326 | a new token refused before any answer is the scope's verdict, and refused after one is renewed |
| AuthAnswers.ReplacedHeader | internal/oci/authstate.go:254-312 | a refused header that has been replaced gets the replacement, or ends a re-issued request as one worth repeating |
| AuthAnswers.WhatIsAsked | internal/oci/authstate.go:254-395 | every refusal sets what the registry asks, and the version check only while nothing was known |
| AuthAnswers.ScopesOfVerbs | internal/oci/credentials.go:113-119 | reads share one scope and everything else another |
| AuthSafety.StepKept | internal/oci/authstate.go:172-492 | every step of every request keeps entries, exchanges and requests in step |
| AuthResults.SingleFlight | internal/oci/authstate.go:443-448 | in every reachable state each scope has at most one exchange in flight |
| AuthResults.HeldFate | internal/oci/authstate.go:443-479 | one step leaves a scope's entry, moves its state forward, drops it when its exchange broke, or replaces it only when expired or proven and refused |
| AuthResults.AcquiringNeverReplaced | internal/oci/authstate.go:443-448 | an acquiring entry stays its scope's entry until an exchange ends |
| AuthResults.FinishFindsItsEntry | internal/oci/authstate.go:476-478 | the identity test in finishLocked always succeeds |
| AuthResults.DeniedIsAbsorbing | internal/oci/authstate.go:303-326 | once denied, a scope stays denied with the same error in every continuation |
| AuthResults.DeniedGivesNothing | internal/oci/authstate.go:172-292 | and whatever asks for it, first or after a refusal, is given up with the scope's error, changes no entry and starts no exchange |
| AuthResults.OnlyStragglersAreSent | internal/oci/authstate.go:399-439 | while a scope is denied, a step sends a request for it exactly when that request waited on an exchange that gave a token, earlier than the denied one and not denied, or its own exchange has just given one, and its body can still be sent; no request joins those |
| AuthResults.DeniedYetSent | internal/oci/authstate.go:399-439 | a run in which the requester that minted a token is sent with it after another request had its scope denied |
| AuthResults.RefusedReplayEnds | internal/oci/authstate.go:303-326 | a refused replay ends its request: with the scope's verdict when the scope still holds what it carried, else as transient with nothing else changed |
| AuthResults.AtMostTwoKeys | internal/oci/credentials.go:113-119 | a repository ever holds at most two entries |
| AuthResults.AtMostTwoSends | internal/oci/repository.go:478-633 | on the direct path one call sends the registry request at most twice, and at most once when its body cannot be produced again |
| AuthResults.SecondSendDiffers | internal/oci/repository.go:560-633 | with tokens never issued twice, the second send carries another header |
| AuthResults.WaiterGets | internal/oci/authstate.go:424-439 | a waiter gets its exchange's outcome exactly when the token it gave has not been denied meanwhile, and that denial otherwise |
| AuthResults.WaiterOvertaken | internal/oci/authstate.go:399-439 | a run in which a waiter of a successful exchange leaves with a denial |
| AuthStampede.RunOrder | internal/oci/authstate.go:254-292 | every interleaving keeps the order of exchanges: a scope holds the last one unless one broke, and no refused header is given again |
| AuthStampede.OneExchangePerToken | internal/oci/authstate.go:254-292 | two exchanges begun by refusals of one header have one between them that broke or gave that header again; with tokens never issued twice, one that broke |
| AuthStampede.AnsweredInBetween | internal/oci/authstate.go:223-292 | between two refusal-begun exchanges with none broken, the registry answered a request with a token given in between |
| AuthStampede.LatecomersShare | internal/oci/authstate.go:254-292 | later requests refused with that header take its replacement, wait for it, or get the scope's error, and change no entry; only a scope given the same header again exchanges anew when it is proven and is denied when not |
| AuthProgress.NoLostWakeup | internal/oci/authstate.go:399-448 | in every reachable state, the channel a request waits on is closed, or another request of its scope is still making the exchange or about to close it |
| AuthProgress.EveryRequestCanEnd | internal/oci/authstate.go:172-448 | no deadlock: from every reachable state some run ends every request, with no wait cancelled and no transport failing |
| Challenge.Scanner.Delims | internal/oci/challenge.go:315-323 | skips white space and commas and nothing else |
| Challenge.Scanner.EqualsSign | internal/oci/challenge.go:329-344 | consumes an equals sign and the white space around it, or nothing |
| Challenge.Scanner.ReadToken | internal/oci/challenge.go:348-359 | reads the longest run of token characters |
| Challenge.Scanner.ReadQuoted | internal/oci/challenge.go:373-396 | undoes backslash escapes and refuses a string nobody closed |
| Challenge.Scanner.SkipToComma | internal/oci/challenge.go:299-310 | stops at the next comma outside quotes, or at the end |
| Challenge.TakeElement | internal/oci/challenge.go:122-161 | each iteration does what the grammar's element does and moves the position strictly forward |
| Challenge.ScanChallenges | internal/oci/challenge.go:117-162 | the loop ends on every header and returns the scan of the whole header |
| Challenge.PickChallenge | internal/oci/challenge.go:172-199 | the first Bearer is returned whole and must name a realm; without one the first Basic is, and without either the error says so |
| Challenge.ParseChallenge | internal/oci/challenge.go:88-108 | an absent header and one over 8192 bytes are refused before anything is read, an unreadable one before anything is picked, and of any other the pick is returned |
| Challenge.TokenCharsAreVisible | internal/oci/challenge.go:399-406 | a token is of visible ASCII characters other than the delimiters of section 5.6.2 of RFC 9110 |
| ChallengeGrammar.UnquoteReads | internal/oci/challenge.go:373-396 | any mix of plain and escaped characters reads back as the text it stands for |
| ChallengeGrammar.LastWins | internal/oci/challenge.go:55-64 | of parameters with one name, compared without case, the last counts |
| ChallengeGrammar.ScanReadsWhatWasWritten | internal/oci/challenge.go:117-162 | any list of challenges, however quoted, escaped and spaced, scans back to itself, with a padded token68 voiding its challenge and an unpadded one read as one more scheme; to an error exactly when a token68 has a slash |
| ChallengeGrammar.Token68Voids | internal/oci/challenge.go:144-156 | a padded token68 without a slash voids the challenge it belongs to and nothing else |
| ChallengeGrammar.UnpaddedChallengeReads | internal/oci/challenge.go:117-162 | a token68 without padding or slash is read as a challenge of its own |
| ChallengeGrammar.SlashEndsScan | internal/oci/challenge.go:128-131 | a token68 with a slash makes the whole header unreadable |
| ChallengeGrammar.Isolation | internal/oci/challenge.go:88-199 | a token68 challenge inserted anywhere leaves every other challenge as it was exactly when it has no slash, and the answer read from the header exactly when the header was too long anyway, or was not empty, still fits, and the token68 has no slash and is padded or names no scheme that would be picked first |
| ChallengeGrammar.NegotiateTakesThePick | internal/oci/challenge.go:88-199 | one such token68: after "Basic realm=x", "Negotiate bearer" turns the pick into an error |
| ChallengeAnswer.AnswerIsWhatWasWritten | internal/oci/challenge.go:88-199 | of every readable list that fits, the first challenge that names Bearer, else Basic, is answered with the realm, service and scopes written in it |
| ChallengeAnswer.UnreadableValueCosts | internal/oci/challenge.go:299-310 | an unreadable value costs what is up to the next comma outside quotes, or up to the end |
| Redirect.SendNext | internal/oci/redirect.go:124-151 | one turn of the loop: what is sent and how it ends |
| Redirect.Follow | internal/oci/redirect.go:120-152 | the loop returns the result of the whole chain and sends exactly its requests |
| Redirect.AtMostThreeHops | internal/oci/redirect.go:160-171 | at most three hops are sent, and all three before a chain is called too long |
| Redirect.CredentialStaysHome | internal/oci/redirect.go:193-199 | a hop carries Authorization exactly when the first request did and every URL so far has its origin |
| Redirect.RegistryCredentialStaysHome | internal/oci/redirect.go:193-199 | for a request to the registry, a hop carries its Authorization exactly when every URL so far, the hop's included, has the registry's origin |
| Redirect.OffOriginIsSticky | internal/oci/redirect.go:132-150 | after leaving the registry only a 200 or 206 is returned, a returned refusal never left, and another party is blamed only after leaving |
| Redirect.EveryHopIsSafe | internal/oci/redirect.go:229-254 | every hop is a GET or HEAD of the first request's kind, never downgraded, with no user information and only the allowed headers, unchanged |
| RedirectChain.CredentialGoesNowhereElse | internal/oci/redirect.go:193-199 | a hop carries the registry's Authorization exactly when neither it nor a hop before it differs from the registry in scheme, host name without case, or port, written or implied |
| RedirectChain.ChainFollowsItsAnswers | internal/oci/redirect.go:120-254 | each hop goes where the redirect before it points; the chain ends as its last answer says: another party's only when it is a 200 or 206, the registry's as it is, a redirect that may not be followed with the reason |
| Retry.Normalized | internal/retry/policy.go:87-111 | every field of the policy in use is positive, and one already positive is kept |
| Retry.CeilingAfter | internal/retry/policy.go:126-148 | the ceiling the guarded doubling reaches, for every policy and attempt, int64 overflow included; for positive fields min(cap, base times 2 to the attempts made), without overflow |
| Retry.CeilingIsOne | internal/retry/policy.go:126-148 | a policy has one ceiling for each attempt |
| Retry.Backoff | internal/retry/policy.go:126-148 | a wait is the draw below that ceiling, or zero when the ceiling is not positive |
| Retry.RoomlessCeiling | internal/retry/policy.go:113-125 | a policy with no room to wait in has a positive ceiling exactly when its base is below its cap, has been doubled out of int64, and has not met the least int64 on the way |
| Retry.RoomlessPolicyWaits | internal/retry/policy.go:113-125 | one such policy, whose wait the cap does not bound |
| Retry.TryOnce | internal/retry/retry.go:45-83 | one turn of the loop: whether it ends the run, and the wait before the next |
| Retry.Do | internal/retry/retry.go:40-90 | the loop is the run: its outcome, how often the operation ran, and every wait |
| Retry.RunKept | internal/retry/retry.go:40-90 | only transient failures are waited on, and each wait is within the cap and at least what the far end asked, up to the cap |
| Retry.HowItEnds | internal/retry/retry.go:40-103 | how a run ended says what its last attempt returned |
| Retry.RunBounds | internal/retry/retry.go:40-90 | at most the policy's attempts, and in all at most the cap times one less |
| RetryRuns.RunEndsAtFirst | internal/retry/retry.go:40-90 | the run ends at the first attempt that no other follows, as that attempt says, and every wait is the draw below min(cap, base doubled) raised to what the far end asked for, up to the cap |
| RetryRuns.SuccessIsReached | internal/retry/retry.go:40-90 | an operation that succeeds within the policy is seen to succeed, after as many runs, however often it failed before in ways worth repeating |

## Left out

* HTTP, TLS, dialing, proxies, connection guards, cookies and timeouts (`internal/oci/endpoint.go`,
  `internal/oci/blob_transport.go`): a response is a status, a header value and a body.
* The upload wire protocol of the go-oci-blob library: the port contract stands for it.
* SHA-256, encoding/json, base64, URL parsing and resolution, strings.Fields, the reference grammar, clocks
  and randomness: parameters, or arbitrary values.
* Credential stores, Docker configuration and token documents (`internal/auth`, most of
  `internal/oci/token.go`): an exchange yields a token, a refusal or another failure.
* `validateRealm` and the address rules in `internal/oci/endpoint.go`: independent checks of one URL each.
* The real file system, ownership and symlink checks of `CreateSink`: the disk keeps synced content and may
  lose anything else.
* The command line, the benchmarks, public options and error texts.
* A re-answered refusal after a redirect that stays on the registry's origin
  (`internal/oci/repository.go:511-523`): such a redirect proves the token again each time, so the code gives
  no bound on the sends of one call.
* Garbage collection in the registry: a blob once held stays held during a push.
* A transfer nobody watches skips the reporter, which the machines and the code always have here.
* Dafny's integers are unbounded in the reporter's counters; overflow of int64 byte and retry counts is not
  modelled.
- Manifest.DecodeInvertsEncode: media types are compared without case for ASCII only, and UTF-8 validity of
  the title is a parameter.
- Challenge.ScanChallenges: a header is a string of bytes; splitting a scope at white space is a parameter.
- JsonCount.CountArrayElements: numbers and literals are any words of their characters, which accepts more
  texts than JSON does; the syntax pass of encoding/json is not modelled.
- AuthResults.SecondSendDiffers: needs tokens that are never issued twice, because a Basic header is the same
  every time.
- AuthResults.AtMostTwoSends: covers the direct path and calls that meet no redirect on the registry's own
  origin.
- RoundTrip.DestinationIsSource: says equal or a collision, and needs a source that does not change during
  the push.
- PartFetch.PartFetcher.Fetch: runs alone on the file and the reporter, as one worker's events; other workers'
  events in between are PullReport's. A part is credited in the step that checks it.
- PushUpload.Uploader.Upload: runs alone on the claims, as one worker's steps, so it meets no twins of its own;
  other workers' steps in between are PushProtocol's. The waits between attempts are Retry's.
- PushWork.HashPass.HashParts: runs alone, as the pass's steps; the workers' steps in between are PushProtocol's.
