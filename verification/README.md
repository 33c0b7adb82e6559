# aestor, modelled and proved in Dafny

aestor downloads a file or a torrent, encrypts the result under a fresh id, lists it in a text manifest, and a
paired pull client fetches, decrypts and then deletes it. No single function of it is deep; what is hard is how the
pieces hold together over pauses, failures, retries, crashes between two disk writes, and any number of clients.

The project follows the program's parts:

- `Codec.dfy`, `CodecProofs.dfy` - the AESTOR02 container: a wrapped key, then length-prefixed frames, each sealed
  under a nonce and additional data that name its index. `encrypt_file` and `decrypt_file` are methods with loops and
  cursors (`FileIO.dfy`), proved against functions on byte strings. The AEAD is a parameter (`Crypto.dfy`): sound
  (what is sealed opens), and for authenticity ideal (only what is in a table of sealings opens). Instances exist.
  The nonce has the shape of section 3.2 of RFC 5116 and section 8.2.1 of NIST SP 800-38D.
- `Text.dfy`, `TextProofs.dfy`, `Manifest.dfy`, `ManifestProofs.dfy` - lines, tokens and file names as Python cuts them,
  and the manifest: what its reader overlooks and refuses, and what an encrypted line can hold.
- `Store.dfy`, `StoreProofs.dfy` - the completed directory as an object whose every write is recorded, so that a crash
  point is an element of a trace.
- `Jobs.dfy` - the life of one job as a step system: a step is the code between two awaits, one request, one write of an
  encryption thread, or a crash (also between the writes of one step) with the restart's restore. A graceful stop is a
  flush, whatever the threads still write, and a crash.
- `JobProofs.dfy`, `JobDurability.dfy`, `JobContent.dfy`, `JobResults.dfy`, `JobCancel.dfy`, `JobRefutation.dfy` - what
  every run of a job keeps, when no crash loses it, what every calm run publishes, what follows for the user, when a
  cancel is final, and the runs on which the program's promises fail.
- `JobRequests.dfy`, `JobTurns.dfy`, `JobCompletion.dfy` - what each request, scan, turn, thread and restart does, told
  from outside: which jobs are refused, what an accepted request changes, what an answer, an exception or a record leads
  to; that a pause stops a download; and that nothing of an unfinished torrent is ever published. The contracts of the
  object's methods below name steps; these lemmas say what the steps are, in statuses, files and records.
- `DownloadManager.dfy` - the download manager as an object with mutable fields. Each handler and each section of a
  coroutine is proved equal to its step, and the object goes through any run of steps as the step system does.
  `_http_download` with `_finalize_path` is a method with the source's loops (one round, the loop over the chunks, the
  loop while paused); a script says what happens at each of its awaits.
- `ServerView.dfy`, `PullProtocol.dfy`, `PullAccess.dfy`, `PullRuns.dfy` - any number of pull processes that pair,
  override, list, fetch, decrypt and delete in any interleaving, over the disk of the store; only the paired client gets
  anything, and a displaced one nothing more.
- `EndToEnd.dfy`, `Delivery.dfy` - one job and the pull protocol together, over the disk, and a run that delivers.
- `PullClient.dfy`, `LocalNames.dfy`, `Progress.dfy`, `Pairing.dfy`, `LoginThrottle.dfy` - the client's file handling,
  what it keeps of a manifest's name, its progress log, the pairing slot, and the login limiter.
- `Witnesses.dfy` - codecs that meet what is required of JSON, base64 and job records.

## What the program does not promise after all

Six properties one would expect are false. Each is stated with the condition under which it holds.

1. `resume` acts on any job whose pause flag is up (backend/app/services/download_manager.py:1012), and a pause can land
   between the end of a stream and its finalization. Such a job completes with the flag up; resuming it writes its
   `job.json` back with the state "encrypting", and after two restarts a file that was not downloaded is published.
   `JobRefutation.PartialFileReachable` is the run, `JobRefutation.CompletedSafeExactly` says that the flag alone
   decides, and *calm* runs are those in which `resume` is not applied to a job that is being finalized or is done.
   Runs in which every finalization begins unpaused are calm (`JobResults.CleanIsCalm`).
2. `write_duration` runs after publication. If a client's DELETE comes first, the metadata is written again, a second
   DELETE succeeds, and two clients keep the file: `PullRuns.DoubleCommitExactly`, `PullRuns.DoubleCommitReachable`. In
   *timely* runs metadata is only written while the blob is there.
3. The manifest is itself a deletable name: `StoreProofs.DeleteKeepsOtherRowsExactly`.
4. AESTOR02 has no end marker, so a file cut at a frame boundary decrypts to a prefix: `CodecProofs.TruncationExact`.
5. The job's record `job.json` lies in the directory the download is written to
   (backend/app/services/store.py:289-293, backend/app/services/download_manager.py:552), and nothing keeps a download
   from having that name. Then the first answer may unlink the record, so that a crash loses the job, or the save at
   the start of the finalization replaces the content, so that the record is published:
   `JobDurability.RecordNameLosesJob` and `JobRefutation.RecordPublished` are these runs, and
   `JobDurability.DurableExactly` and `JobRefutation.PromisesExactly` say that they are all: among names that are one
   plain path component, the promises hold exactly if neither the name given to `add_url` nor the one the server
   announces is `job.json`. *Usable* names are those.
6. A cancel need not be final. A torrent that was paused while its completion waited is packed all the same; resuming it
   makes it cancellable, and when the packing then fails, the failure saves the record again and the next restart brings
   the job back: `JobCancel.CancelledComesBack`. A cancel is final, over every continuation, exactly if no coroutine but
   the one it ends is past the lock or at or in `_finalize_path`: `JobCancel.CancelIsFinalExactly`. In runs in which
   every finalization begins unpaused it always is: `JobCancel.CleanCancelIsFinal`.

One assumption is made of the environment and shown to be needed. Both the API's DELETE and the web's, which runs in a
worker thread, rewrite the manifest through the same temporary file. If two such rewrites overlap, a deleted row comes
back and a second client's DELETE succeeds too: `PullRuns.OverlapRestores`, `PullRuns.OverlapCommitsTwice`. The theorems
about clients take a web removal as one step.

## Model

| member | source | states |
|---|---|---|
| `Codec.EncryptFile` | backend/app/services/encryption.py:90-138 | the destination is exactly the container of the file cut into 512 KiB chunks, or of its first 2^32 chunks with an error; progress rises strictly to (p, p) |
| `Codec.DecryptFile` | backend/app/services/encryption.py:177-241 | writes and returns what `Decode` says of any byte string whatever, malformed ones included, and on an error keeps the plaintext written before it |
| `Codec.EncryptChunks` | backend/app/services/encryption.py:114-132 | the read, seal, write and report loop against the recursive description of its output |
| `Codec.DecryptFrames` | backend/app/services/encryption.py:205-231 | the frame loop against `DecodeFrames`, for every input |
| `Codec.ReadExact` | backend/app/services/encryption.py:170-174 | exactly n bytes or a truncation error |
| `CodecProofs.RoundTrip` | backend/app/services/encryption.py:90-241 | decryption returns the plaintext for any cut into chunks of up to 4 MiB, at most 2^32 of them |
| `CodecProofs.WritersRoundTrip` | backend/app/services/encryption.py:90-138 | the same for a file cut by any chunk size up to 4 MiB, the 512 KiB writer, the 4 MiB writer and the empty file among them |
| `CodecProofs.LegacyRoundTrip` | backend/app/services/encryption.py:232-241 | the one-shot AESTOR01 format decrypts to its plaintext |
| `CodecProofs.TruncationExact` | backend/app/services/encryption.py:170-231 | the first n bytes decrypt if and only if n is the header plus whole frames, and then to the chunks of those frames |
| `CodecProofs.AuthenticExactly` | backend/app/services/encryption.py:197-231 | with the wrapped key kept and an ideal AEAD, what decrypts is exactly a prefix of the original frames, and gives the first k chunks |
| `CodecProofs.LegacyRejected` | backend/app/services/encryption.py:66-70 | frames of a new file relabelled with the old magic are rejected |
| `CodecProofs.BadLengthRefused` | backend/app/services/encryption.py:214-218 | after any whole frames, one that announces fewer than 16 bytes or more than 4 MiB and the tag is refused, and what came before has been written |
| `CodecProofs.CutFrameRefused` | backend/app/services/encryption.py:170-174 | so is one that is cut short |
| `CodecProofs.BadMagicRefused` | backend/app/services/encryption.py:241 | a sound header under any other magic is refused |
| `CodecProofs.Layout` | backend/app/services/encryption.py:61-132 | the container byte by byte: magics in ASCII, lengths and chunk numbers most significant byte first, nonce and associated data |
| `CodecProofs.NoncesDistinct` | backend/app/services/encryption.py:61-66 | two chunk indices of a file never share a nonce |
| `CodecProofs.BlobSize` | backend/app/services/encryption.py:106-138 | the size of a p-byte file's blob, and that the counter suffices up to 2^51 bytes |
| `Manifest.LineRoundTrip` | backend/app/services/encryption.py:140-259 | a manifest line decrypts to the payload it was made from |
| `ManifestProofs.ForeignLineRefused` | backend/app/services/encryption.py:244-249 | data that does not begin with the line magic is refused, whatever it is |
| `ManifestProofs.LineAuthentic` | backend/app/services/encryption.py:244-259 | with the wrapped key kept and an ideal AEAD, a line decrypts to a payload exactly if its ciphertext was sealed as a line around that payload |
| `Manifest.ParseText` | backend/app/services/encryption.py:262-273 | the line loop against its description: blank and comment lines skipped, a line without a tab refuses the whole text |
| `Manifest.ParsesRendered` | backend/app/services/encryption.py:262-273 | the manifest of any rows parses to those rows in order |
| `ManifestProofs.CommentIgnored` | backend/app/services/encryption.py:265-268 | blank lines and comments, indented or not, may stand anywhere and change nothing |
| `ManifestProofs.MalformedRefused` | backend/app/services/encryption.py:269-270 | any other line without a tab refuses the whole text |
| `ManifestProofs.PaddedLine` | backend/app/services/encryption.py:271-272 | white space around a line and around its cells does not matter |
| `TextProofs.SplitsAtBreak` | backend/app/services/encryption.py:265 | every line break ends a line and belongs to none, a carriage return with a line feed as one |
| `TextProofs.StripExactly` | backend/app/services/encryption.py:266-272 | stripping takes the white space from both ends, all of it, and nothing else |
| `Store.AppendCompleted` | backend/app/services/store.py:374-403 | the final directory, and that before its last write it differs from the old one at most in the temporary file and an unlisted blob |
| `Store.PlaceBlob` | backend/app/services/store.py:383-390 | a failed encryption leaves no temporary file, a successful one is renamed into place |
| `Store.DeleteCompleted` | backend/app/services/store.py:412-423 | reports whether blob, metadata or row existed; the blob is overwritten twice before it is unlinked; the final directory; every directory on the way is partly deleted |
| `Store.ManifestHas` | backend/app/services/store.py:425-433 | finds exactly a line that begins with the id and a tab |
| `Store.RewriteManifestWithout` | backend/app/services/store.py:435-449 | keeps exactly the other lines, and the old manifest until the rename |
| `StoreProofs.LineOfExactly` | backend/app/services/store.py:428-432 | the prefix test selects the row of that id alone, also when one id begins another |
| `StoreProofs.StoreRefines` | backend/app/services/store.py:341-449 | after any run of publishing, deleting and writing durations, the parsed manifest is the surviving rows in append order, and the web listing has the same ids |
| `StoreProofs.DeleteKeepsOtherRowsExactly` | backend/app/services/store.py:412-449 | a delete takes its own row and no other, exactly unless it names the manifest and there are rows |
| `StoreProofs.PublishCrash` | backend/app/services/store.py:374-403 | a crash before the row is written leaves no row without a blob |
| `StoreProofs.DeleteRestartable` | backend/app/services/store.py:412-449 | from any crash point inside a delete, deleting again reaches the disk of the undisturbed delete |
| `StoreProofs.SecondDelete` | backend/app/services/store.py:405-423 | a second delete reports success exactly if metadata was written in between |
| `DownloadManager.Manager.PersistJob` | backend/app/services/store.py:280-305 | the record is the job's snapshot, or none if the status is not persistable |
| `DownloadManager.Manager.Pause` | backend/app/services/download_manager.py:982-1006 | the pause step, and that exactly queued and downloading jobs are accepted |
| `DownloadManager.Manager.Resume` | backend/app/services/download_manager.py:1008-1025 | the resume step, and that exactly jobs with their flag up or their status paused are accepted |
| `DownloadManager.Manager.Retry` | backend/app/services/download_manager.py:1039-1166 | the retry step of either kind, and that it reports success exactly if the job had failed, had no coroutine, and can be taken up again |
| `DownloadManager.Manager.Cancel` | backend/app/services/download_manager.py:1168-1199 | the cancel step up to its await, and that exactly queued, downloading, paused, failed and cancelled jobs are accepted |
| `DownloadManager.Manager.Answered` | backend/app/services/download_manager.py:569-617 | what an answer does to file, name and record: 206 goes on, 200 starts over, 416 fails |
| `DownloadManager.Manager.GotChunk` | backend/app/services/download_manager.py:617-638 | a chunk is appended and counted, or dropped when a pause was requested, as `JobTurns.ChunkExactly` and `JobRequests.PausedChunk` tell it |
| `DownloadManager.Manager.ReadBody` | backend/app/services/download_manager.py:617-638 | the loop over the chunks goes through the steps of its coroutine, and ends at the end of the body, at a requested pause, or with the coroutine |
| `DownloadManager.Manager.SitOut` | backend/app/services/download_manager.py:642-650 | after a pause the job is saved, and the coroutine sleeps until it is resumed; then the loop starts over under the same name |
| `DownloadManager.Manager.FinalizePath` | backend/app/services/download_manager.py:918-980 | the thread gets one item, and if the method reaches its end the job is completed, that item is published and listed under the job's file id, and the work directory is gone |
| `DownloadManager.Manager.HttpDownload` | backend/app/services/download_manager.py:550-662 | the loops go through exactly the states of the step system, with whatever is served at the awaits, until the coroutine has ended or the script is over; the download is left only with the turn that hands its file to the thread |
| `DownloadManager.Download` | backend/app/services/download_manager.py:492-662 | whatever requests and failures come in, the download ends with a prefix of the remote content under its final name, and with all of it if it goes to the encryption thread; a coroutine that reaches its end has published the remote content |
| `DownloadManager.Manager.HandleAll` | backend/app/services/download_manager.py:250-1199 | through any run of requests, scans, turns, thread writes and crashes with restarts the object's fields and directory are what the step system says |
| `DownloadManager.Manager.StartFinalize` | backend/app/services/download_manager.py:918-931 | the first section of `_finalize_path`: status, state and counter are reset and saved, and the thread gets what the path holds after that save |
| `DownloadManager.Manager.FinishFinalize` | backend/app/services/download_manager.py:967-980 | the last section of `_finalize_path` |
| `DownloadManager.Manager.Poll` | backend/app/services/download_manager.py:680-785 | the poll loop on one torrent |
| `DownloadManager.Manager.LockTaken` | backend/app/services/download_manager.py:787-874 | `_complete_torrent` from the lock to its first await |
| `DownloadManager.Manager.DoRestoreHttp` | backend/app/services/download_manager.py:272-313 | the restore step of an HTTP job |
| `DownloadManager.Manager.DoRestoreTorrent` | backend/app/services/download_manager.py:315-347 | the restore step of a torrent |
| `JobProofs.SingleFinalizer` | backend/app/services/download_manager.py:787-980 | in every run at most one coroutine is inside `_finalize_path`, whether poll, retry, restore or download started it |
| `JobProofs.FileIdOnce` | backend/app/services/download_manager.py:967 | within a process an assigned file id never changes |
| `JobProofs.OnePublished` | backend/app/services/download_manager.py:956-967 | unless something fails after its blob is placed, one process publishes one blob of the job at most |
| `JobDurability.CrashDurable` | backend/app/services/download_manager.py:250-347 | after any run under usable names, with crashes between any two writes, a job that was not cancelled has its record and is restored, or its blob with its row |
| `JobDurability.RecordNameLosesJob` | backend/app/services/download_manager.py:552-617 | under the record's own name a crash in the first answer leaves nothing of a job that was not cancelled |
| `JobDurability.DurableExactly` | backend/app/services/store.py:280-296 | among plain names, no run loses a job that was not cancelled exactly if neither the given nor the announced name is the record's |
| `JobProofs.RestartInv` | backend/app/services/store.py:312-330 | a restart from any disk a run can leave re-establishes every invariant, and knows the job exactly if it has a record |
| `JobContent.BeginWhole` | backend/app/services/download_manager.py:918-926 | `_finalize_path` is only ever given the whole remote file under its final name |
| `JobContent.StepWhole` | backend/app/services/download_manager.py:550-662 | every calm step, crashes included, keeps: files are prefixes, counters are lengths, and a record that says "encrypting" stands beside the whole file |
| `JobResults.OnlyWholeFiles` | backend/app/services/download_manager.py:550-662 | in every calm run of a download with usable names whatever is published is the remote content under the announced name |
| `JobResults.PrefixAlways` | backend/app/services/download_manager.py:550-642 | at every step of every calm run of a download with usable names the file is a prefix of the content, and a stream's remainder fits it exactly |
| `JobResults.ChunkCounts` | backend/app/services/download_manager.py:618-623 | after each chunk the byte counter equals the length of the file, which has grown |
| `JobResults.ResumesFromByte` | backend/app/services/download_manager.py:569-617 | a resumed download asks for the first missing byte and goes on behind what it has |
| `JobResults.PauseSurvivesExactly` | backend/app/services/download_manager.py:272-347 | a pause outlives a crash exactly unless the record says the job was being packed or encrypted and, for a download, its file is there |
| `JobRequests.PauseStopsExactly` | backend/app/services/download_manager.py:618-651 | pausing a streaming download stops it: no continuation without a resume, a retry or a crash writes a byte or starts a finalization, exactly unless the stream had ended |
| `JobRequests.HaltedRun` | backend/app/services/download_manager.py:555-651 | the same for a download paused anywhere between its answer and the end of its stream: files and uploads stay as they are, or a cancel takes the files |
| `JobRequests.RetryTorrentExactly` | backend/app/services/download_manager.py:1064-1090 | a failed torrent with its handle gets one new coroutine, its completion, exactly if it is finished or failed while being packed or encrypted; otherwise its coroutines stay as they are |
| `JobRequests.RetryDetachedExactly` | backend/app/services/download_manager.py:1092-1134 | without its handle it is attached, fetched again or left failed, and never completed |
| `JobRequests.RetryHttpExactly` | backend/app/services/download_manager.py:1136-1166 | a failed download is finalized from its file exactly if it failed while being encrypted and the file is there; otherwise the file is gone, the counter is 0 and a download starts |
| `JobRequests.PollExactly` | backend/app/services/download_manager.py:680-785 | a scan completes exactly the finished torrents that are not paused; one that cannot be read fails and is saved; the others only take over the swarm's state |
| `JobCompletion.UnfinishedNeverPublished` | backend/app/services/download_manager.py:680-916 | over every run, restarts included, in which no scan and no retry reports a torrent finished, nothing of it is packed, encrypted, handed to a thread or published |
| `JobCompletion.CompletionLicensed` | backend/app/services/download_manager.py:315-347 | a process waits for the finalize lock, or is past it, only if it was told that the torrent is finished, retried what failed while being finalized, or found a record saying so |
| `JobTurns.RangeRefused` | backend/app/services/download_manager.py:580-583 | a range the server cannot satisfy fails and saves the job and keeps its file; it is not taken for complete |
| `JobTurns.WholeAnswer` | backend/app/services/download_manager.py:579-617 | an answer with everything starts over: an empty file under the final name, and the whole content to come |
| `JobTurns.NoFileNoUpload` | backend/app/services/download_manager.py:918-980 | a finalization without its file fails the job and publishes nothing |
| `JobTurns.LockExactly` | backend/app/services/download_manager.py:787-874 | a completion starts only with the lock free and the job there, attached, and neither being encrypted nor completed; otherwise it waits or ends without a trace |
| `JobTurns.RestartHttpExactly` | backend/app/services/download_manager.py:272-313 | what a restart does with a download, by its record: failed stays failed, being finalized with its file there is finalized, paused waits, any other goes on |
| `JobTurns.RestartAttached` | backend/app/services/download_manager.py:315-347 | the same of a torrent that can be attached; what was being packed or encrypted is completed again, paused or not |
| `JobTurns.RestartRefetched` | backend/app/services/download_manager.py:315-347 | and of one whose `.torrent` file is fetched again |
| `JobResults.CleanIsCalm` | backend/app/services/download_manager.py:918-1025 | if every finalization begins with the pause flag down, `resume` never touches a job that is being finalized or done |
| `JobResults.EncryptingUndisturbed` | backend/app/services/download_manager.py:680-693 | in such runs pause, resume, retry, cancel and poll leave a job that is being encrypted exactly as it is |
| `JobResults.CompletedAbsorbs` | backend/app/services/download_manager.py:982-1199 | in such runs a completed job stays as it is whatever runs, with no record and no work file |
| `JobResults.NothingWiped` | backend/app/services/download_manager.py:1194-1196 | in such runs no cancel ever removes a completed blob |
| `JobCancel.CancelIsFinalExactly` | backend/app/services/download_manager.py:1168-1199 | every queued, running, paused, failed or cancelled job can be cancelled; it then has no entry, no record and no file, and no continuation brings it back exactly if nobody else was past the lock or at or in `_finalize_path` |
| `JobCancel.CancelledStaysExactly` | backend/app/services/download_manager.py:787-980 | the same of every state in which a job has neither entry nor record: it stays so forever exactly if no uncancelled coroutine is inside |
| `JobCancel.CleanCancelIsFinal` | backend/app/services/download_manager.py:1168-1199 | if every finalization begins with the pause flag down, nothing brings a cancelled job back |
| `JobCancel.CancelledComesBack` | backend/app/services/download_manager.py:787-916 | a run in which a cancelled torrent is back after the next restart |
| `JobCancel.ResumeUnlocksWipeExactly` | backend/app/services/download_manager.py:1008-1025 | on a completed job a cancel is refused, and after a `resume` it removes the job and its published blob exactly if the pause flag was up |
| `JobRefutation.CompletedSafeExactly` | backend/app/services/download_manager.py:1008-1025 | after a job completed, no continuation publishes anything but the remote file exactly if its pause flag is down |
| `JobRefutation.PausedCompletionReachable` | backend/app/services/download_manager.py:640 | a pause after the end of the stream leaves a completed job with the flag up |
| `JobRefutation.PartialFileReachable` | backend/app/services/download_manager.py:272-313 | for every non-empty remote file some run publishes something else |
| `JobRefutation.RecordPublished` | backend/app/services/download_manager.py:918-956 | if the announced name is the record's, a calm run publishes the record instead of the content, for any content |
| `JobRefutation.PromisesExactly` | backend/app/services/download_manager.py:492-662 | among plain names, calm runs publish nothing but the remote content and lose no job exactly if neither the given nor the announced name is the record's |
| `ServerView.DeleteShows` | backend/app/main.py:540-554 | the disk delete answers and acts as the delete of the API's view |
| `ServerView.AppendShows` | backend/app/services/store.py:374-403 | publishing leaves exactly the blob and its row on the API's view, beside what was there |
| `PullRuns.DiskSimulates` | backend/app/main.py:500-554 | every protocol step on the API's view is the store's own operation on the disk |
| `PullRuns.DiskRun` | backend/app/services/store.py:241-449 | from a new directory on, after every timely run the disk shows the server of the protocol: the manifest parses to its rows, and a delete finds what it has |
| `PullRuns.OverlapRestores` | backend/app/services/store.py:435-449 | if the rewrites of two removals overlap, the second one's row is back, unless they remove the same file |
| `PullRuns.OverlapCommitsTwice` | backend/app/main.py:404-415 | with such an overlap both of two racing processes commit |
| `PullProtocol.ExclusiveConservedIntact` | backend/app/main.py:439-554 | in every timely run of any number of clients, each listed file not removed from the web is on the server or kept by exactly one process, never both or two, and what is kept is the published plaintext under the published name |
| `PullProtocol.DeleteKeeps` | scripts/pull.py:479-500 | the DELETE that succeeds finds no earlier winner and leaves nothing for a later one |
| `PullAccess.DeleteExactly` | backend/app/main.py:540-554 | a DELETE removes the file, and its sender keeps it, exactly if the sender is the paired client and something of the file is left; otherwise the server stays as it is and the copy is dropped |
| `PullAccess.DecidedByDelete` | backend/app/main.py:540-554 | in no other way than by its own granted DELETE does a process get to keep a file |
| `PullAccess.LostByRemoval` | backend/app/main.py:404-415 | the server loses a file by a web removal or by the paired client's DELETE of it, and in no other way |
| `PullAccess.BeginExactly` | backend/app/main.py:518-537 | a download begins exactly if the row decrypts, the client is the paired one and the blob is there, under the name the row decrypts to |
| `PullAccess.DecryptExactly` | scripts/pull.py:458-482 | a download is decrypted exactly if it is whole and its container decodes |
| `PullAccess.DisplacedKeepsNothing` | backend/app/main.py:500-554 | in any run in which its client is not paired again, a process displaced before its DELETE keeps nothing new and starts nothing new |
| `PullAccess.OverrideDisplaces` | backend/app/services/pairing.py:114-156 | after another client's override a DELETE leaves the server as it is and its sender keeps nothing new |
| `PullRuns.DoubleCommitExactly` | backend/app/services/download_manager.py:965 | of two processes that both decrypted a file both commit exactly if the duration is written between their DELETEs |
| `PullRuns.DoubleCommitReachable` | backend/app/services/store.py:405-410 | a run in which two clients keep one file |
| `EndToEnd.DeliveredIntact` | scripts/pull.py:405-507 | in timely and calm runs of a download with usable names, what a client keeps of it is the remote content, byte for byte, under the name recorded at finalization, and no other client has it |
| `EndToEnd.RowsCarryName` | backend/app/services/store.py:392-402 | every manifest row of the job decrypts to its id and the name recorded at finalization |
| `EndToEnd.ServedFromDisk` | backend/app/main.py:500-554 | in every timely run of the job and its clients together, the manifest and the existence checks a client meets are read off the disk the store has written |
| `EndToEnd.NeverLost` | backend/app/services/download_manager.py:918-980 | at every step a torrent, or a download with usable names, that was not cancelled is on record, or a file of it is on the server, or with exactly one client, or was removed from the web interface |
| `Delivery.DeliveryReachable` | scripts/pull.py:405-507 | for every remote file that can be encrypted, the empty one included, some timely and calm run ends with a client that keeps it |
| `PullClient.DecimalInjective` | scripts/pull.py:107-111 | different numbers give different suffixes |
| `PullClient.UniquePath` | scripts/pull.py:101-112 | returns the first free name within one more try than there are files |
| `PullClient.SafeNameStaysInside` | scripts/pull.py:95-98 | whatever the manifest says, the local name is one plain component |
| `LocalNames.SafeNameKeeps` | scripts/pull.py:95-98 | the fallback is used exactly if the base name has no safe character but blanks, dots and underscores; otherwise the local name has all the others of it in their order, and else only its characters and underscores |
| `LocalNames.SafeNameExactly` | scripts/pull.py:95-98 | between its first and last such character the base name is cleaned; what is outside is dropped |
| `LocalNames.PlainNameKept` | scripts/pull.py:95-98 | one component of safe characters that neither begins nor ends with a blank, dot or underscore is kept as it is |
| `LocalNames.DirectoryIgnored` | scripts/pull.py:96 | the directory part of a path does not matter |
| `LocalNames.CleanRun` | scripts/pull.py:97 | a run of other characters between safe ones becomes one underscore |
| `LocalNames.NumberedVariant` | scripts/pull.py:105-111 | the number goes between stem and suffix, and to the end without a suffix |
| `LocalNames.DecimalValue` | scripts/pull.py:109 | it is written in decimal, without leading zeros |
| `PullClient.ProcessOne` | scripts/pull.py:405-507 | exactly one new file with the whole plaintext, under the first free variant of the sanitised name, or the output directory as before |
| `PullClient.PullCycle` | scripts/pull.py:599-638 | over a cycle earlier files stay; the successful rows, and no others, each leave one file, under the first name free at that time |
| `Progress.Mark` | scripts/pull.py:222-223 | the milestone is the percentage rounded down to a multiple of 5, at most 95 |
| `Progress.NewsExactly` | scripts/pull.py:209-226 | a report with a known size adds a line exactly if some multiple of 5 up to 95 is reached and none as high was logged; otherwise exactly if two seconds have passed |
| `Progress.ProgressLog.Emit` | scripts/pull.py:198-240 | a final call adds the 100 percent line, or the count if the size is unknown; another one adds the milestone reached if it is above all logged before, or, with an unknown size, the count if the last line is two seconds old |
| `Progress.ProgressLog.AtMost21Lines` | scripts/pull.py:151-240 | in every reachable state at most 21 percentages, strictly increasing multiples of 5 |
| `Pairing.PairingService.Pair` | backend/app/services/pairing.py:114-156 | who gets the slot, what a reconnection keeps, and every field of the new record |
| `Pairing.PairingService.Save` | backend/app/services/pairing.py:68-78 | when the file is written and when only marked dirty |
| `Pairing.PairingService.RequireClient` | backend/app/services/pairing.py:165-177 | exactly the paired client passes, and which refusal another one gets |
| `Pairing.PairingService.Touch` | backend/app/services/pairing.py:179-184 | a heartbeat changes `last_seen` and nothing else |
| `Pairing.PairingService.UpdateStatus` | backend/app/services/pairing.py:186-217 | every field of the new record, in memory and on disk |
| `Pairing.PairingService.ReloadLosesLittle` | backend/app/services/pairing.py:57-78 | in every reachable state disk and memory differ at most in `last_seen`, by less than two seconds, and not at all unless dirty |
| `LoginThrottle.RecordKeepsSpacing` | backend/app/auth.py:63-77 | recording a failure that was allowed keeps any 21 in a row more than 300 seconds apart |
| `LoginThrottle.TwentiethExpired` | backend/app/auth.py:63-74 | fewer than 20 recent failures means the twentieth last is more than 300 seconds old |
| `LoginThrottle.Expire` | backend/app/auth.py:66-67 | dropping the expired front of the deque leaves exactly the recorded failures that are at most 300 seconds old |
| `LoginThrottle.Throttle.LoginAllowed` | backend/app/auth.py:63-74 | refused exactly if 20 recorded failures are at most 300 seconds old |
| `LoginThrottle.Throttle.Login` | backend/app/main.py:216-238 | the login handler on top of the limiter, per address |

## Left out

- Several jobs at once: one job is modelled; the others only show as a lock that is not granted and as foreign files.
- libtorrent, peers, magnet parsing, zip packing and the statistics of the poll loop: a handle is there or not, "finished" is any bit, packing succeeds or fails, and a torrent's name changes only when it is packed.
- RSA, AES-GCM, JSON and base64 internals: parameters with their inverses; of base64 only that it yields a token.
- Real HTTP: the remote content is fixed, its coding is the identity, an early close is an error, and a Content-Disposition name does not change between answers.
- Names that are not one plain path component, or that are `.job.json.tmp`, and names the file system refuses: the theorems about a download are about usable names. When a download overwrites the record, what it leaves is taken as a record only if it reads as one, and as one of the same kind of job. A torrent's files are not named like its record.
- Errors between two awaits other than those an await or the encryption thread raises, and disk writes that fail or are torn.
- The content a finalization reads is taken when it begins; that nothing changes the file until the thread is done is part of what is proved for calm runs.
- A crash between two saves of the record inside one restore: the record on disk is then the earlier of the two.
- External deletion of work files, lost DELETE replies, a client killed while it commits, and overlaps of two writes of the manifest, append or rewrite; what an overlap of two rewrites does is shown beside the protocol.
- Universal newlines: the manifest's own lines end in a line feed and contain no other line break.
- The passes of `secure_delete` beyond two overwrites, and progress reports during decryption.
- User interface, WebSocket hub, notifications, GeoIP, egress, sessions, bearer checks, configuration and docker files.
- Rates, remaining times and log formatting; times are reals, percentages whole numbers, and pairing has one clock that starts at 2 or later.
- DownloadManager.Manager.HttpDownload: a turn in which what the coroutine waits for has not come is a turn in which nothing changes; the script may hold any number of them.
- DownloadManager.Manager.HandleAll: crashes between two writes of one step are in the step system only.
- DownloadManager.Manager.LockTaken: which files of a torrent are packed, or which single one is taken, is an argument.
- DownloadManager.Manager.Poll: it covers one torrent; the order in which finished ones are completed is left to the steps.
